/** The rolling log writer over a directory whose every operation may fail. */
module RollingLog {
  import opened Common

  type Bytes = seq<bv8>

  datatype Outcome = Done | Missing | Broken

  /** The log file under number 0 and its backups under theirs. */
  class Directory {
    var files: map<nat, Bytes>

    constructor (files: map<nat, Bytes>)
      ensures this.files == files
    {
      this.files := files;
    }

    method Remove(index: nat) returns (outcome: Outcome)
      modifies this
      ensures outcome.Done? ==> index in old(files) && files == old(files) - {index}
      ensures outcome.Missing? ==> index !in old(files) && files == old(files)
      ensures outcome.Broken? ==> files == old(files)
    {
      var fault: bool := *;
      if fault {
        return Broken;
      }
      if index !in files {
        return Missing;
      }
      files := files - {index};
      return Done;
    }

    /** No caller may rename onto an existing file. */
    method Rename(source: nat, target: nat) returns (outcome: Outcome)
      requires source != target && target !in files
      modifies this
      ensures outcome.Done? ==> source in old(files) && files == (old(files) - {source})[target := old(files)[source]]
      ensures outcome.Missing? ==> source !in old(files) && files == old(files)
      ensures outcome.Broken? ==> files == old(files)
    {
      var fault: bool := *;
      if fault {
        return Broken;
      }
      if source !in files {
        return Missing;
      }
      var content := files[source];
      files := files - {source};
      files := files[target := content];
      return Done;
    }

    method Truncate(index: nat, size: nat) returns (ok: bool)
      requires index in files && size <= |files[index]|
      modifies this
      ensures files == if ok then old(files)[index := old(files)[index][..size]] else old(files)
    {
      var fault: bool := *;
      if fault {
        return false;
      }
      files := files[index := files[index][..size]];
      return true;
    }

    /** O_CREATE | O_APPEND. */
    method Open(index: nat) returns (ok: bool)
      modifies this
      ensures files == if ok && index !in old(files) then old(files)[index := []] else old(files)
      ensures ok ==> index in files
    {
      var fault: bool := *;
      if fault {
        return false;
      }
      if index !in files {
        files := files[index := []];
      }
      return true;
    }

    /** A failing write may leave any part of the data behind, even all of it. */
    method Append(index: nat, data: Bytes) returns (ok: bool, n: nat)
      requires index in files
      modifies this
      ensures n <= |data| && files == old(files)[index := old(files)[index] + data[..n]]
      ensures ok ==> n == |data|
    {
      ok, n := *, |data|;
      if !ok {
        n := *;
        if n > |data| {
          n := 0;
        }
      }
      files := files[index := files[index] + data[..n]];
    }
  }

  // ----- the space taken and the text kept

  function SizeAt(files: map<nat, Bytes>, index: nat): nat {
    if index in files then |files[index]| else 0
  }

  function TotalSize(files: map<nat, Bytes>, backups: nat): nat {
    SizeAt(files, backups) + if backups == 0 then 0 else TotalSize(files, backups - 1)
  }

  function TextAt(files: map<nat, Bytes>, index: nat): Bytes {
    if index in files then files[index] else []
  }

  /** What a reader gets from the highest-numbered backup down to the current file. */
  function Kept(files: map<nat, Bytes>, backups: nat): Bytes {
    TextAt(files, backups) + if backups == 0 then [] else Kept(files, backups - 1)
  }

  ghost predicate IsSuffix(s: Bytes, whole: Bytes) {
    |s| <= |whole| && whole[|whole| - |s|..] == s
  }

  /** Only numbers up to the limit exist, and no file is larger than the limit. */
  ghost predicate Within(files: map<nat, Bytes>, maxSize: nat, backups: nat) {
    forall k :: k in files ==> k <= backups && |files[k]| <= maxSize
  }

  lemma {:induction false} WithinBoundsTotal(files: map<nat, Bytes>, maxSize: nat, backups: nat, n: nat)
    requires Within(files, maxSize, backups)
    ensures TotalSize(files, n) <= maxSize * (n + 1)
  {
    if n > 0 {
      WithinBoundsTotal(files, maxSize, backups, n - 1);
      assert maxSize * (n + 1) == maxSize * n + maxSize;
    }
  }

  /** Appending to the current file appends to the text. */
  lemma {:induction false} KeptGrows(files: map<nat, Bytes>, data: Bytes, n: nat)
    requires 0 in files
    ensures Kept(files[0 := files[0] + data], n) == Kept(files, n) + data
  {
    var after := files[0 := files[0] + data];
    if n > 0 {
      KeptGrows(files, data, n - 1);
      assert TextAt(after, n) == TextAt(files, n);
      assert TextAt(files, n) + (Kept(files, n - 1) + data) == (TextAt(files, n) + Kept(files, n - 1)) + data;
    } else {
      assert Kept(files, 0) == files[0] && Kept(after, 0) == files[0] + data;
    }
  }

  /** Every file one number up, and an empty current file. */
  ghost predicate Shifted(before: map<nat, Bytes>, after: map<nat, Bytes>, backups: nat) {
    TextAt(after, 0) == [] && forall k :: 0 <= k < backups ==> TextAt(after, k + 1) == TextAt(before, k)
  }

  lemma {:induction false} ShiftKeepsText(before: map<nat, Bytes>, after: map<nat, Bytes>, backups: nat, n: nat)
    requires Shifted(before, after, backups) && n < backups
    ensures Kept(after, n + 1) == Kept(before, n)
  {
    if n > 0 {
      ShiftKeepsText(before, after, backups, n - 1);
    } else {
      assert Kept(after, 0) == [];
    }
  }

  /** The oldest removed, the others moved up, the current file made backup 1. */
  lemma RotationShifts(before: map<nat, Bytes>, cleared: map<nat, Bytes>, vacated: map<nat, Bytes>,
      last: map<nat, Bytes>, backups: nat)
    requires backups > 0 && cleared == before - {backups}
    requires TextAt(vacated, 0) == TextAt(cleared, 0) && 0 in vacated
    requires forall k :: 0 < k < backups ==> TextAt(vacated, k + 1) == TextAt(cleared, k)
    requires last == (vacated - {0})[1 := vacated[0]][0 := []]
    ensures Shifted(before, last, backups)
  {
    forall k | 0 <= k < backups ensures TextAt(last, k + 1) == TextAt(before, k) {
      if k > 0 {
        assert TextAt(vacated, k + 1) == TextAt(cleared, k);
      }
    }
  }

  lemma ShiftedTexts(before: map<nat, Bytes>, after: map<nat, Bytes>, backups: nat)
    requires Shifted(before, after, backups)
    ensures forall k :: 0 <= k < backups ==> TextAt(after, k + 1) == TextAt(before, k)
  {
  }

  /** A rotation drops the oldest backup and nothing else. */
  lemma ShiftedIsSuffix(before: map<nat, Bytes>, after: map<nat, Bytes>, backups: nat)
    requires backups > 0 && Shifted(before, after, backups)
    ensures IsSuffix(Kept(after, backups), Kept(before, backups))
  {
    ShiftKeepsText(before, after, backups, backups - 1);
    assert Kept(before, backups) == TextAt(before, backups) + Kept(before, backups - 1);
  }

  lemma NothingIsSuffix(before: map<nat, Bytes>, after: map<nat, Bytes>)
    requires TextAt(after, 0) == []
    ensures IsSuffix(Kept(after, 0), Kept(before, 0))
  {
  }

  lemma SuffixOfSuffix(a: Bytes, b: Bytes, c: Bytes)
    requires IsSuffix(a, b) && IsSuffix(b, c)
    ensures IsSuffix(a, c)
  {
    assert c[|c| - |a|..] == c[|c| - |b|..][|b| - |a|..];
  }

  lemma SuffixGrows(a: Bytes, b: Bytes, data: Bytes)
    requires IsSuffix(a, b)
    ensures IsSuffix(a + data, b + data)
  {
    assert (b + data)[|b| - |a|..] == b[|b| - |a|..] + data;
  }

  // ----- the writer

  datatype WriteError = Closed | Failed | TooLarge

  class RollingWriter {
    const directory: Directory
    const maxSize: nat
    const backups: nat
    var isOpen: bool
    var size: nat
    var failed: bool
    var closed: bool
    /** The text found at the start followed by every accepted record. */
    ghost var log: Bytes

    constructor (directory: Directory, maxSize: nat, backups: nat, size: nat)
      ensures this.directory == directory && this.maxSize == maxSize && this.backups == backups
      ensures isOpen && this.size == size && !failed && !closed && log == Kept(directory.files, backups)
    {
      this.directory, this.maxSize, this.backups, this.size := directory, maxSize, backups, size;
      isOpen, failed, closed, log := true, false, false, Kept(directory.files, backups);
    }

    /** Space is bounded whatever has happened; while nothing failed, what the files hold is
        the end of the log. */
    ghost predicate Valid()
      reads this, directory
    {
      Within(directory.files, maxSize, backups)
      && (!failed ==> IsSuffix(Kept(directory.files, backups), log))
      && (!failed && !closed ==> isOpen && 0 in directory.files && size == |directory.files[0]|)
    }

    /** The descending loop of rotate: every backup below the last moves one number up, each
        onto a number just vacated. */
    method MoveBackups() returns (ok: bool)
      requires backups > 0 && Within(directory.files, maxSize, backups) && backups !in directory.files
      modifies directory
      ensures Within(directory.files, maxSize, backups)
      ensures ok ==> 1 !in directory.files && TextAt(directory.files, 0) == TextAt(old(directory.files), 0)
      ensures ok ==> (0 in directory.files <==> 0 in old(directory.files))
      ensures ok ==> forall k :: 0 < k < backups ==> TextAt(directory.files, k + 1) == TextAt(old(directory.files), k)
    {
      ghost var before := directory.files;
      var index := backups - 1;
      while index >= 1
        invariant 0 <= index < backups
        invariant Within(directory.files, maxSize, backups)
        invariant index + 1 !in directory.files
        invariant forall k :: 0 <= k <= index ==> (k in directory.files <==> k in before)
        invariant forall k :: 0 <= k <= index ==> TextAt(directory.files, k) == TextAt(before, k)
        invariant forall k :: index < k < backups ==> TextAt(directory.files, k + 1) == TextAt(before, k)
      {
        var moved := directory.Rename(index, index + 1);
        if moved.Broken? {
          return false;
        }
        index := index - 1;
      }
      return true;
    }

    /** rotate. */
    method Rotate() returns (ok: bool)
      requires Within(directory.files, maxSize, backups) && isOpen && 0 in directory.files
      modifies this`isOpen, this`size, directory
      ensures Within(directory.files, maxSize, backups)
      ensures ok ==> isOpen && size == 0 && 0 in directory.files && directory.files[0] == []
      ensures ok ==> forall k :: 0 <= k < backups ==> TextAt(directory.files, k + 1) == TextAt(old(directory.files), k)
      ensures ok ==> IsSuffix(Kept(directory.files, backups), Kept(old(directory.files), backups))
    {
      hide Kept, IsSuffix, Shifted;
      ghost var before := directory.files;
      if backups == 0 {
        ok := directory.Truncate(0, 0);
        if ok {
          size := 0;
          NothingIsSuffix(before, directory.files);
        }
        return;
      }
      var fault: bool := *;
      if fault {
        return false;
      }
      isOpen := false;
      var removed := directory.Remove(backups);
      if removed.Broken? {
        return false;
      }
      ghost var cleared := directory.files;
      ok := MoveBackups();
      if !ok {
        return;
      }
      ghost var vacated := directory.files;
      var moved := directory.Rename(0, 1);
      if !moved.Done? {
        return false;
      }
      ok := directory.Open(0);
      if ok {
        isOpen, size := true, 0;
        RotationShifts(before, cleared, vacated, directory.files, backups);
        ShiftedTexts(before, directory.files, backups);
        ShiftedIsSuffix(before, directory.files, backups);
      }
    }

    /** The write proper, into a current file with room for the data. */
    method Emit(data: Bytes) returns (ok: bool)
      requires Within(directory.files, maxSize, backups) && isOpen && !closed && !failed
      requires 0 in directory.files && size == |directory.files[0]| && size + |data| <= maxSize
      requires IsSuffix(Kept(directory.files, backups), log)
      modifies this`size, this`failed, this`log, directory
      ensures Valid() && failed == !ok
      ensures log == if ok then old(log) + data else old(log)
      ensures ok ==> directory.files == old(directory.files)[0 := old(directory.files)[0] + data]
    {
      hide Kept, IsSuffix;
      ghost var before := directory.files;
      var written, n := directory.Append(0, data);
      assert |directory.files[0]| == size + n;
      if !written || n != |data| {
        failed := true;
        var _ := directory.Truncate(0, size);
        return false;
      }
      size := size + n;
      assert data[..n] == data;
      KeptGrows(before, data, backups);
      SuffixGrows(Kept(before, backups), log, data);
      log := log + data;
      return true;
    }

    /** Write: a record that fits behind the current text is appended to it and no backup is
        touched; otherwise every file moves one number up, the oldest backup goes, and the
        record starts the current file. Only a record larger than a file is refused for its size. */
    method Write(data: Bytes) returns (result: Result<nat, WriteError>)
      requires Valid()
      modifies this, directory
      ensures Valid() && closed == old(closed)
      ensures TotalSize(directory.files, backups) <= maxSize * (backups + 1)
      ensures result.Ok? ==> result.value == |data| && log == old(log) + data && !failed
      ensures result.Err? ==> log == old(log)
      ensures result.Ok? ==>
                0 in old(directory.files)
                && if |old(directory.files)[0]| + |data| <= maxSize
                   then directory.files == old(directory.files)[0 := old(directory.files)[0] + data]
                   else TextAt(directory.files, 0) == data
                        && forall k :: 0 <= k < backups ==>
                             TextAt(directory.files, k + 1) == TextAt(old(directory.files), k)
      ensures result == Err(TooLarge) <==> !old(closed) && !old(failed) && |data| > maxSize
      ensures result == Err(TooLarge) ==> failed == old(failed) && directory.files == old(directory.files)
      ensures old(closed) ==> result == Err(Closed)
      ensures !old(closed) && old(failed) ==> result == Err(Failed) && failed && directory.files == old(directory.files)
      ensures !failed ==> IsSuffix(Kept(directory.files, backups), log)
    {
      hide Kept, IsSuffix, TotalSize;
      WithinBoundsTotal(directory.files, maxSize, backups, backups);
      if closed {
        return Err(Closed);
      }
      if failed {
        return Err(Failed);
      }
      if |data| > maxSize {
        return Err(TooLarge);
      }
      if size > maxSize - |data| {
        var rotated := Rotate();
        if !rotated {
          failed := true;
          WithinBoundsTotal(directory.files, maxSize, backups, backups);
          return Err(Failed);
        }
        SuffixOfSuffix(Kept(directory.files, backups), Kept(old(directory.files), backups), log);
      }
      var ok := Emit(data);
      WithinBoundsTotal(directory.files, maxSize, backups, backups);
      if !ok {
        return Err(Failed);
      }
      return Ok(|data|);
    }

    /** Close. */
    method Close() returns (ok: bool)
      requires Valid()
      modifies this
      ensures Valid() && closed && !isOpen && log == old(log)
    {
      closed := true;
      if !isOpen {
        return true;
      }
      isOpen := false;
      ok := *;
    }
  }

  /** Removes every backup beyond a limit, in whatever order the directory lists them. */
  method RemoveExcess(directory: Directory, maxSize: int, backups: int) returns (ok: bool)
    modifies directory
    ensures ok ==>
              (0 in directory.files <==> 0 in old(directory.files))
              && (forall k :: k in directory.files ==>
                    k in old(directory.files) && directory.files[k] == old(directory.files)[k])
              && forall k :: k > 0 ==>
                   (k in directory.files <==>
                    k in old(directory.files) && Fits(old(directory.files), k, maxSize, backups))
  {
    ghost var before := directory.files;
    var remaining := directory.files.Keys - {0};
    while remaining != {}
      invariant 0 !in remaining && remaining <= directory.files.Keys
      invariant forall k :: k in directory.files ==> k in before && directory.files[k] == before[k]
      invariant forall k :: k in before && k !in directory.files ==> 0 < k && !Fits(before, k, maxSize, backups)
      invariant forall k :: k in directory.files && k !in remaining && k > 0 ==> Fits(before, k, maxSize, backups)
      decreases |remaining|
    {
      var index :| index in remaining;
      remaining := remaining - {index};
      if index > backups || |directory.files[index]| > maxSize {
        var removed := directory.Remove(index);
        if !removed.Done? {
          return false;
        }
      }
    }
    return true;
  }

  /** newRollingWriter: backups beyond the limits go, an oversized current file is emptied.
      When it succeeds the bound holds from the start. */
  method NewRollingWriter(directory: Directory, maxSize: int, backups: int) returns (writer: Option<RollingWriter>)
    modifies directory
    ensures maxSize <= 0 || backups < 0 ==> writer.None? && directory.files == old(directory.files)
    ensures writer.Some? ==>
              fresh(writer.value) && writer.value.Valid() && writer.value.directory == directory
              && writer.value.maxSize == maxSize && writer.value.backups == backups
              && !writer.value.failed && !writer.value.closed
              && writer.value.log == Kept(directory.files, backups)
              && TotalSize(directory.files, backups) <= maxSize * (backups + 1)
              && Cleaned(old(directory.files), directory.files, maxSize, backups)
  {
    if maxSize <= 0 || backups < 0 {
      return None;
    }
    var cleaned := RemoveExcess(directory, maxSize, backups);
    if !cleaned {
      return None;
    }
    if 0 in directory.files {
      if |directory.files[0]| > maxSize {
        var ok := directory.Truncate(0, 0);
        if !ok {
          return None;
        }
      }
    }
    var ready := directory.Open(0);
    if !ready {
      return None;
    }
    var w := new RollingWriter(directory, maxSize, backups, |directory.files[0]|);
    WithinBoundsTotal(directory.files, maxSize, backups, backups);
    return Some(w);
  }

  predicate Fits(files: map<nat, Bytes>, index: nat, maxSize: int, backups: int)
    requires index in files
  {
    index <= backups && |files[index]| <= maxSize
  }

  /** Construction keeps exactly the backups within both limits, and the current file if it
      fits. */
  ghost predicate Cleaned(before: map<nat, Bytes>, after: map<nat, Bytes>, maxSize: int, backups: int) {
    0 in after && after[0] == (if 0 in before && |before[0]| <= maxSize then before[0] else [])
    && (forall k :: k > 0 ==> (k in after <==> k in before && k <= backups && |before[k]| <= maxSize))
    && forall k :: k > 0 && k in after ==> after[k] == before[k]
  }
}
