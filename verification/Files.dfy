/** The directory the server serves from: names, the files behind them, and open descriptors.
    A descriptor is a reference to an `Inode`, so it keeps its file through any renaming. */
module Files {
  import opened Bytes

  /** Where PUT number `id` of `name` collects its bytes. */
  function TempOf(name: string, id: nat): string {
    name + ".tmp." + Dec(id)
  }

  datatype WriteResult = Wrote(n: nat) | WriteInterrupted | WriteFailed

  class Inode {
    var data: string
    var interrupts: nat
    const reliable: bool

    constructor (reliable: bool, interrupts: nat)
      ensures data == "" && this.reliable == reliable
    {
      this.data, this.interrupts, this.reliable := "", interrupts, reliable;
    }

    /** `pread`: some bytes at `pos`, or none at the end of the file or on failure. */
    method Pread(want: nat, pos: nat) returns (buf: string)
      requires want > 0
      ensures |buf| <= want
      ensures buf != "" ==> pos + |buf| <= |data| && buf == data[pos..pos + |buf|]
      ensures reliable && pos < |data| ==> buf != ""
    {
      if pos >= |data| {
        return "";
      }
      var least := if reliable then 1 else 0;
      var most := if |data| - pos < want then |data| - pos else want;
      var n :| least <= n <= most;
      return data[pos..pos + n];
    }

    /** `write` at the end of a file opened for writing. */
    method Write(buf: string) returns (r: WriteResult)
      requires buf != ""
      modifies this
      ensures r.Wrote? ==> 1 <= r.n <= |buf| && data == old(data) + buf[..r.n] && interrupts == old(interrupts)
      ensures r.WriteInterrupted? ==> data == old(data) && interrupts < old(interrupts)
      ensures r.WriteFailed? ==> !reliable && data == old(data) && interrupts == old(interrupts)
    {
      var stop: bool := *;
      if stop && interrupts > 0 {
        interrupts := interrupts - 1;
        return WriteInterrupted;
      }
      if stop && !reliable {
        return WriteFailed;
      }
      var n :| 1 <= n <= |buf|;
      data := data + buf[..n];
      return Wrote(n);
    }

    method WriteAll(buf: string) returns (ok: bool)
      modifies this
      ensures ok ==> data == old(data) + buf
      ensures !ok ==> !reliable && old(data) <= data <= old(data) + buf
    {
      var done := 0;
      while done < |buf|
        invariant 0 <= done <= |buf|
        invariant data == old(data) + buf[..done]
        decreases |buf| - done, interrupts
      {
        var w := Write(buf[done..]);
        if w.WriteInterrupted? {
          continue;
        }
        if w.WriteFailed? {
          return false;
        }
        assert buf[..done] + buf[done..][..w.n] == buf[..done + w.n];
        done := done + w.n;
      }
      assert buf[..done] == buf;
      return true;
    }
  }

  class FileSystem {
    var names: map<string, Inode>
    const reliable: bool

    constructor (reliable: bool)
      ensures names == map[] && this.reliable == reliable
    {
      this.names, this.reliable := map[], reliable;
    }

    /** The file behind `path`, if any. */
    ghost function At(path: string): set<Inode>
      reads this
    {
      if path in names then {names[path]} else {}
    }

    /** `open(O_RDONLY)`. */
    method Open(path: string) returns (ino: Inode?)
      ensures ino != null ==> path in names && ino == names[path]
      ensures reliable && path in names ==> ino != null
    {
      var fail: bool := *;
      if path !in names || (fail && !reliable) {
        return null;
      }
      return names[path];
    }

    /** `open(O_WRONLY | O_CREAT | O_TRUNC)`: an existing file is emptied, not replaced. */
    method Create(path: string) returns (ino: Inode?)
      modifies this`names, At(path)
      ensures ino == null ==> names == old(names) && (forall i :: i in old(At(path)) ==> i.data == old(i.data))
      ensures ino != null ==> names == old(names)[path := ino] && ino.data == ""
      ensures ino != null ==> if path in old(names) then ino == old(names)[path] else fresh(ino)
      ensures reliable ==> ino != null
      ensures ino != null && fresh(ino) ==> ino.reliable == reliable
    {
      var fail: bool := *;
      if fail && !reliable {
        return null;
      }
      if path in names {
        ino := names[path];
        ino.data := "";
      } else {
        ino := new Inode(reliable, 0);
        names := names[path := ino];
      }
    }

    method Rename(from: string, to: string) returns (ok: bool)
      modifies this`names
      ensures ok ==> from in old(names) && names == (old(names) - {from})[to := old(names)[from]]
      ensures !ok ==> names == old(names)
      ensures reliable && from in old(names) ==> ok
    {
      var fail: bool := *;
      if from !in names || (fail && !reliable) {
        return false;
      }
      names := (names - {from})[to := names[from]];
      return true;
    }

    method Unlink(path: string)
      modifies this`names
      ensures names == old(names) - {path}
    {
      names := names - {path};
    }
  }
}
