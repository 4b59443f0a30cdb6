/** The record of which containers the platform wants running: one small file, changed by serialized operations. */
module DesiredState {
  import opened Wrappers

  datatype Desired = Running | Stopped

  datatype StateFile = StateFile(bootId: string, containers: map<string, Desired>)

  /** What is at the file's path. `Corrupt` is anything that does not parse as a state file. */
  datatype Disk = Absent | Corrupt | Saved(file: StateFile)

  const EMPTY := StateFile("", map[])

  /** An absent or corrupt file reads as empty. */
  function Contents(disk: Disk): StateFile { if disk.Saved? then disk.file else EMPTY }

  function Get(file: StateFile, id: string): Option<Desired> {
    if id in file.containers then Some(file.containers[id]) else None
  }

  function Marked(file: StateFile, id: string, desired: Desired): StateFile {
    file.(containers := file.containers[id := desired])
  }

  function Removed(file: StateFile, id: string): StateFile {
    file.(containers := file.containers - {id})
  }

  /** Entries that exist are kept; running containers without one are added. */
  function Seeded(containers: map<string, Desired>, running: seq<string>): (r: map<string, Desired>)
    ensures r.Keys == containers.Keys + set id <- running
    ensures forall id <- r :: r[id] == if id in containers then containers[id] else Running
  {
    if running == [] then containers
    else
      var rest := Seeded(containers, running[..|running| - 1]);
      var id := running[|running| - 1];
      assert running == running[..|running| - 1] + [id];
      if id in rest then rest else rest[id := Running]
  }

  function Stamped(file: StateFile, running: seq<string>, bootId: string): StateFile {
    StateFile(bootId, Seeded(file.containers, running))
  }

  class DesiredStateStore {
    const enabled: bool
    var disk: Disk
    /** How many corrupt files were moved aside. */
    var aside: nat

    constructor (enabled: bool, disk: Disk)
      ensures this.enabled == enabled && this.disk == disk && aside == 0
    {
      this.enabled, this.disk, this.aside := enabled, disk, 0;
    }

    method Load() returns (file: Option<StateFile>)
      modifies this
      ensures file == if old(disk).Saved? then Some(old(disk).file) else None
      ensures disk == if old(disk).Corrupt? then Absent else old(disk)
      ensures aside == if old(disk).Corrupt? then old(aside) + 1 else old(aside)
    {
      match disk {
        case Absent => file := None;
        case Saved(f) => file := Some(f);
        case Corrupt =>
          disk, aside := Absent, aside + 1;
          file := None;
      }
    }

    method Mark(id: string, desired: Desired)
      modifies this
      ensures !enabled ==> disk == old(disk)
      ensures enabled ==> disk == Saved(Marked(Contents(old(disk)), id, desired))
    {
      if !enabled { return; }
      var loaded := Load();
      var state := if loaded.Some? then loaded.value else EMPTY;
      if id in state.containers && state.containers[id] == desired {
        assert state.containers[id := desired] == state.containers;
        return;
      }
      disk := Saved(state.(containers := state.containers[id := desired]));
    }

    method Remove(id: string)
      modifies this
      ensures !enabled ==> disk == old(disk)
      ensures enabled ==> Contents(disk) == Removed(Contents(old(disk)), id) && !disk.Corrupt?
    {
      if !enabled { return; }
      var loaded := Load();
      var state := if loaded.Some? then loaded.value else EMPTY;
      if id !in state.containers {
        assert state.containers - {id} == state.containers;
        return;
      }
      disk := Saved(state.(containers := state.containers - {id}));
    }

    /** Saves only when something changed; the stamped boot id and the seeds are durable either way. */
    method SeedAndStamp(running: seq<string>, bootId: string)
      modifies this
      ensures !enabled ==> disk == old(disk)
      ensures enabled ==> Contents(disk) == Stamped(Contents(old(disk)), running, bootId) && !disk.Corrupt?
    {
      if !enabled { return; }
      var loaded := Load();
      var state := if loaded.Some? then loaded.value else EMPTY;
      var changed := state.bootId != bootId;
      var containers := state.containers;
      for i := 0 to |running|
        invariant containers == Seeded(state.containers, running[..i])
        invariant !changed ==> state.bootId == bootId && containers == state.containers
      {
        assert running[..i + 1][..i] == running[..i];
        if running[i] !in containers {
          containers := containers[running[i] := Running];
          changed := true;
        }
      }
      assert running[..|running|] == running;
      if changed { disk := Saved(StateFile(bootId, containers)); }
    }

    method Read() returns (file: Option<StateFile>)
      modifies this
      ensures file == if enabled && old(disk).Saved? then Some(old(disk).file) else None
      ensures Contents(disk) == Contents(old(disk))
    {
      if !enabled { return None; }
      file := Load();
    }
  }
}
