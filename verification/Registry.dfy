/** `erl/register.go`: the registry object, as it is when one goroutine uses it at a time. */
module RegistryObject {
  import opened Types

  datatype ErrorKind = AlreadyRegistered | NameInUse | NoProcess | BadName

  predicate IsBadName(name: string) {
    name == "nil" || name == "undefined" || name == ""
  }

  /** The part of a process that the registry deals with: `_status == RUNNING` and `_name`. */
  class NamedProcess {
    var running: bool
    var name: string

    constructor ()
      ensures running && name == ""
    {
      running, name := true, "";
    }

    /** `tryRegisterName`: the status and the name are checked, and the name set, in one piece. */
    method TryRegisterName(n: string) returns (err: Option<ErrorKind>)
      modifies this`name
      ensures err == if !running then Some(NoProcess)
                     else if old(name) != "" then Some(AlreadyRegistered) else None
      ensures name == if err == None then n else old(name)
    {
      if !running {
        return Some(NoProcess);
      }
      if name != "" {
        return Some(AlreadyRegistered);
      }
      name := n;
      return None;
    }
  }

  class Registry {
    var names: map<string, NamedProcess>
    /** The processes that exist. */
    ghost var all: set<NamedProcess>

    /** The map and the names that the processes carry say the same. */
    ghost predicate Valid()
      reads this, all
    {
      && (forall n :: n in names ==> names[n] in all && names[n].name == n && !IsBadName(n))
      && (forall p :: p in all && p.name != "" ==> p.name in names && names[p.name] == p)
    }

    constructor (ghost processes: set<NamedProcess>)
      requires forall p :: p in processes ==> p.name == ""
      ensures Valid() && names == map[] && all == processes
    {
      names, all := map[], processes;
    }

    /** The errors in the order in which they are looked for; on success exactly this name is added. */
    method Register(name: string, pid: NamedProcess?) returns (err: Option<ErrorKind>)
      requires Valid() && (pid != null ==> pid in all)
      modifies this`names, (if pid == null then {} else {pid})`name
      ensures Valid() && all == old(all)
      ensures err == if IsBadName(name) then Some(BadName)
                     else if pid == null then Some(NoProcess)
                     else if name in old(names) then Some(NameInUse)
                     else if !pid.running then Some(NoProcess)
                     else if old(pid.name) != "" then Some(AlreadyRegistered)
                     else None
      ensures err == None ==> names == old(names)[name := pid] && pid.name == name
      ensures err != None ==> names == old(names) && (pid != null ==> pid.name == old(pid.name))
    {
      if IsBadName(name) {
        return Some(BadName);
      }
      if pid == null {
        return Some(NoProcess);
      }
      if name in names {
        return Some(NameInUse);
      }
      err := pid.TryRegisterName(name);
      if err == None {
        names := names[name := pid];
      }
    }

    method WhereIs(name: string) returns (pid: NamedProcess?)
      requires Valid()
      ensures pid != null <==> name in names
      ensures pid != null ==> pid == names[name] && pid.name == name
      ensures forall p :: p in all && p.name == name != "" ==> pid == p
    {
      pid := null;
      if name in names {
        pid := names[name];
      }
    }

    /** Takes the name from whoever holds it. */
    method Unregister(name: string) returns (found: bool)
      requires Valid()
      modifies this`names, all`name
      ensures Valid() && all == old(all)
      ensures found == (name in old(names))
      ensures names == old(names) - {name}
      ensures forall p :: p in all ==> p.name == if old(p.name) == name then "" else old(p.name)
    {
      found := false;
      if name in names {
        var pid := names[name];
        names := names - {name};
        pid.name := "";
        found := true;
      }
    }
  }
}
