/** The part of `node:fs/promises` the logger uses, made abstract: the log
    directory as a map from file name to contents and birth time, and the
    sequence of file operations performed so far. */
module Disk {

  /** One call into the file system, as the logger issues them. */
  datatype FsOp =
    | OpenFile(name: string)
    | WriteFile(name: string, text: string)
    | StatFile(name: string)
    | CloseFile(name: string)

  /** The log directory: the contents of each file (its size is the length)
      and the time, in milliseconds, at which each file was created. */
  datatype Volume = Volume(files: map<string, string>, birthMs: map<string, int>)
  {
    /** Every file has a birth time and nothing else does. */
    predicate WellFormed()
    {
      files.Keys == birthMs.Keys
    }
  }

  /** `fs.open(name, "a+")`: the file is created empty, born now, if it does
      not exist; an existing file keeps its contents and its birth time. */
  function OpenAppend(vol: Volume, name: string, nowMs: int): (r: Volume)
    requires vol.WellFormed()
    ensures r.WellFormed() && name in r.files
    ensures forall f :: f in vol.files ==> f in r.files && r.files[f] == vol.files[f] && r.birthMs[f] == vol.birthMs[f]
    ensures forall f :: f in r.files && f !in vol.files ==> f == name && r.files[f] == "" && r.birthMs[f] == nowMs
  {
    if name in vol.files then vol
    else Volume(vol.files[name := ""], vol.birthMs[name := nowMs])
  }

  /** `handle.write(text)` on a file opened for append. */
  function Append(vol: Volume, name: string, text: string): (r: Volume)
    requires vol.WellFormed() && name in vol.files
    ensures r.WellFormed() && r.files.Keys == vol.files.Keys && r.birthMs == vol.birthMs
    ensures r.files[name] == vol.files[name] + text
    ensures forall f :: f in vol.files && f != name ==> r.files[f] == vol.files[f]
  {
    Volume(vol.files[name := vol.files[name] + text], vol.birthMs)
  }

  class FileSystem {
    var volume: Volume
    var ops: seq<FsOp>

    constructor(initial: Volume)
      requires initial.WellFormed()
      ensures volume == initial && ops == []
    {
      volume := initial;
      ops := [];
    }

    method Open(name: string, nowMs: int)
      requires volume.WellFormed()
      modifies this
      ensures volume == OpenAppend(old(volume), name, nowMs)
      ensures ops == old(ops) + [OpenFile(name)]
    {
      volume := OpenAppend(volume, name, nowMs);
      ops := ops + [OpenFile(name)];
    }

    method Write(name: string, text: string)
      requires volume.WellFormed() && name in volume.files
      modifies this
      ensures volume == Append(old(volume), name, text)
      ensures ops == old(ops) + [WriteFile(name, text)]
    {
      volume := Append(volume, name, text);
      ops := ops + [WriteFile(name, text)];
    }

    /** `handle.stat()`: the size and birth time of the file. */
    method Stat(name: string) returns (size: nat, birthMs: int)
      requires volume.WellFormed() && name in volume.files
      modifies this
      ensures volume == old(volume) && ops == old(ops) + [StatFile(name)]
      ensures size == |volume.files[name]| && birthMs == volume.birthMs[name]
    {
      size, birthMs := |volume.files[name]|, volume.birthMs[name];
      ops := ops + [StatFile(name)];
    }

    method Close(name: string)
      modifies this
      ensures volume == old(volume) && ops == old(ops) + [CloseFile(name)]
    {
      ops := ops + [CloseFile(name)];
    }
  }
}
