/** The containerd client the driver calls. Creations, starts and reads may fail at any time;
    deletions and cleanup are taken to succeed. Every answer is kept in the record `host`. */
module Containerd {
  import opened Names
  import opened Runtime
  import opened Tasks
  import opened Machine
  import Host

  class Client {
    const host: Host.Record
    var containers: set<Cid>
    var metadata: set<Cid>
    var running: set<Cid>

    constructor ()
      ensures View() == EMPTY && fresh(host)
    {
      containers, metadata, running := {}, {}, {};
      host := new Host.Record();
    }

    ghost function View(): Store
      reads this
    {
      Store(containers, metadata, running)
    }

    method EnsureImage() returns (ok: bool)
      modifies host
      ensures host.said == old(host.said) + [Host.Reply(Host.PullPauseImage, ok)]
    {
      ok := host.Ask(Host.PullPauseImage, false);
    }

    method CreateContainer(id: Cid) returns (ok: bool)
      modifies this, host
      ensures host.said == old(host.said) + [Host.Reply(Host.CreateContainer(id), ok)]
      ensures ok ==> id !in old(containers) && View() == AddContainer(old(View()), id)
      ensures !ok ==> View() == old(View())
    {
      ok := *;
      if id in containers {
        ok := false;
      }
      if ok {
        containers := containers + {id};
      }
      host.Note(Host.Reply(Host.CreateContainer(id), ok));
    }

    /** Succeeds on an existing record. */
    method CreateSandboxMetadata(id: Cid) returns (ok: bool)
      modifies this, host
      ensures host.said == old(host.said) + [Host.Reply(Host.CreateMetadata(id), ok)]
      ensures View() == if ok then AddMetadata(old(View()), id) else old(View())
    {
      ok := host.Ask(Host.CreateMetadata(id), false);
      if ok {
        metadata := metadata + {id};
      }
    }

    method DeleteSandboxMetadata(id: Cid)
      modifies this
      ensures View() == Runtime.DeleteMetadata(old(View()), id)
    {
      metadata := metadata - {id};
    }

    method DeleteContainer(id: Cid)
      modifies this
      ensures View() == Runtime.DeleteContainer(old(View()), id)
    {
      containers := containers - {id};
    }

    /** Starts the container's task; also the start inside RunTask. */
    method StartTaskDetached(id: Cid) returns (ok: bool)
      modifies this, host
      ensures host.said == old(host.said) + [Host.Reply(Host.StartTask(id), ok)]
      ensures ok ==> CanBoot(old(View()), id) && View() == Boot(old(View()), id)
      ensures !ok ==> View() == old(View())
    {
      ok := *;
      if id !in containers || id in running || (id.TaskOf? && SandboxOf(id.alloc) !in running) {
        ok := false;
      }
      if ok {
        running := running + {id};
      }
      host.Note(Host.Reply(Host.StartTask(id), ok));
    }

    /** SIGKILL and deletion of the running task; a sandbox takes its tasks along. */
    method DeleteTask(id: Cid)
      modifies this
      ensures View() == Halt(old(View()), id)
    {
      running := set d | d in running && !(if id.SandboxOf? then d.alloc == id.alloc else d == id);
    }

    /** Not-found counts as not running, without an error. */
    method TaskState(id: Cid) returns (r: Reading)
      modifies host
      ensures host.said == old(host.said) + [Host.Read(id, r)]
      ensures ReadingPossible(NO_FAULTS, View(), id, r)
    {
      var failed: bool := *;
      if failed {
        r := OtherError;
      } else if id in containers && id in running {
        r := Running;
      } else {
        var closed: bool := *;
        r := if closed then TransportClosed else NotRunning;
      }
      host.Note(Host.Read(id, r));
    }
  }
}
