/** The world outside bilgeline: a container runtime, the shared volume and the clock. Every
    answer is arbitrary, so whatever is proved holds against any runtime whatsoever. */
module Host {
  import opened Wrappers

  datatype Mount = Mount(destination: string)

  datatype Container = Container(
    id: string,
    name: string,
    labels: map<string, string>,
    project: string,
    service: string,
    image: string,
    logDriver: string,
    state: string,
    mounts: seq<Mount>,
    env: seq<string>)

  /** One interaction with the outside; a None answer is an error from the runtime. */
  datatype Event =
    | Listed(fleet: Option<seq<Container>>)
    | Inspected(id: string, answer: Option<Container>)
    | Killed(id: string, signal: string, ok: bool)
    | Restarted(id: string, ok: bool)
    | Wrote(path: string, data: string, ok: bool)
    | Waited(cancelled: bool)

  class Host {
    var files: map<string, string>
    var now: int
    ghost var trace: seq<Event>

    constructor (files: map<string, string>, now: int)
      ensures this.files == files && this.now == now && trace == []
    {
      this.files, this.now, trace := files, now, [];
    }

    method List() returns (fleet: Option<seq<Container>>)
      modifies this`trace
      ensures trace == old(trace) + [Listed(fleet)]
    {
      fleet := *;
      trace := trace + [Listed(fleet)];
    }

    /** An inspection may take time. */
    method Inspect(id: string) returns (answer: Option<Container>)
      modifies this`trace, this`now
      ensures trace == old(trace) + [Inspected(id, answer)] && now >= old(now)
    {
      answer := *;
      var elapsed: int := *;
      if elapsed > 0 {
        now := now + elapsed;
      }
      trace := trace + [Inspected(id, answer)];
    }

    method Kill(id: string, signal: string) returns (ok: bool)
      modifies this`trace
      ensures trace == old(trace) + [Killed(id, signal, ok)]
    {
      ok := *;
      trace := trace + [Killed(id, signal, ok)];
    }

    method Restart(id: string) returns (ok: bool)
      modifies this`trace
      ensures trace == old(trace) + [Restarted(id, ok)]
    {
      ok := *;
      trace := trace + [Restarted(id, ok)];
    }

    /** A write through a temporary file and a rename: all of it or nothing. */
    method WriteAtomic(path: string, data: string) returns (ok: bool)
      modifies this`trace, this`files
      ensures trace == old(trace) + [Wrote(path, data, ok)]
      ensures files == if ok then old(files)[path := data] else old(files)
    {
      ok := *;
      if ok {
        files := files[path := data];
      }
      trace := trace + [Wrote(path, data, ok)];
    }

    /** Sleep for `interval`, unless the context is cancelled first. */
    method Wait(interval: nat) returns (cancelled: bool)
      modifies this`trace, this`now
      ensures trace == old(trace) + [Waited(cancelled)]
      ensures now >= old(now) + (if cancelled then 0 else interval)
    {
      cancelled := *;
      var elapsed: int := *;
      if elapsed > 0 {
        now := now + elapsed;
      }
      if !cancelled {
        now := now + interval;
      }
      trace := trace + [Waited(cancelled)];
    }
  }
}
