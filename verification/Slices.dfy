// Appending to a shared slice. The command of the resource is a slice with spare capacity of
// unknown size, and both the pod template and the job template append to it.
module Slices {
  import opened Templates

  /** A slice over an array; the capacity is the length of the array. */
  datatype Slice = Slice(backing: array<string>, len: nat) {
    predicate Valid() {
      len <= backing.Length
    }

    function Contents(): seq<string>
      requires Valid()
      reads backing
    {
      backing[..len]
    }

    predicate HasRoom(n: nat) {
      len + n <= backing.Length
    }
  }

  /** Appending writes into the spare capacity when it suffices, and copies otherwise. */
  method Append(s: Slice, xs: seq<string>) returns (r: Slice)
    requires s.Valid()
    modifies s.backing
    ensures r.Valid() && r.len == s.len + |xs| && r.Contents() == old(s.Contents()) + xs
    ensures s.HasRoom(|xs|) ==>
      r.backing == s.backing && s.backing[r.len..] == old(s.backing[s.len + |xs|..])
    ensures !s.HasRoom(|xs|) ==> fresh(r.backing) && s.backing[..] == old(s.backing[..])
    ensures s.Contents() == old(s.Contents())
  {
    if s.HasRoom(|xs|) {
      for i := 0 to |xs|
        invariant s.backing[..s.len] == old(s.backing[..s.len])
        invariant s.backing[s.len..s.len + i] == xs[..i]
        invariant s.backing[s.len + |xs|..] == old(s.backing[s.len + |xs|..])
      {
        s.backing[s.len + i] := xs[i];
      }
      r := Slice(s.backing, s.len + |xs|);
      assert r.backing[..r.len] == s.backing[..s.len] + s.backing[s.len..s.len + |xs|];
    } else {
      var all := s.backing[..s.len] + xs;
      var copy := new string[|all|](i requires 0 <= i < |all| => all[i]);
      r := Slice(copy, |all|);
      assert copy[..] == all;
    }
  }

  method PodCommand(command: Slice) returns (r: Slice)
    requires command.Valid()
    modifies command.backing
    ensures r.Valid() && r.len == command.len + 2 && r.Contents() == old(command.Contents()) + CONFIG_FLAGS
    ensures command.Contents() == old(command.Contents())
    ensures command.HasRoom(2) ==>
      r.backing == command.backing && command.backing[command.len + 2..] == old(command.backing[command.len + 2..])
    ensures !command.HasRoom(2) ==> fresh(r.backing) && command.backing[..] == old(command.backing[..])
  {
    r := Append(command, CONFIG_FLAGS);
  }

  /** The job template first builds a pod template, then replaces its command. */
  method JobCommand(command: Slice, arg: string) returns (r: Slice)
    requires command.Valid()
    modifies command.backing
    ensures r.Valid() && r.len == command.len + 6 && r.Contents() == old(command.Contents()) + INIT_FLAGS + [arg]
    ensures command.Contents() == old(command.Contents())
    ensures command.HasRoom(6) ==> r.backing == command.backing
    ensures command.HasRoom(2) ==> command.backing[command.len..command.len + 2] == CONFIG_FLAGS
    ensures !command.HasRoom(6) ==> fresh(r.backing)
    ensures !command.HasRoom(6) && command.HasRoom(2) ==>
      command.backing[command.len + 2..] == old(command.backing[command.len + 2..])
    ensures !command.HasRoom(2) ==> command.backing[..] == old(command.backing[..])
  {
    var pod := PodCommand(command);
    assert old(command.Contents()) + (INIT_FLAGS + [arg]) == old(command.Contents()) + INIT_FLAGS + [arg];
    assert command.HasRoom(2) ==> command.backing[command.len..command.len + 2] == CONFIG_FLAGS by {
      if command.HasRoom(2) {
        assert pod.Contents()[command.len..] == CONFIG_FLAGS;
      }
    }
    r := Append(command, INIT_FLAGS + [arg]);
    if command.HasRoom(6) {
      assert command.backing[command.len..command.len + 2] == r.Contents()[command.len..command.len + 2];
      assert r.Contents()[command.len..command.len + 2] == (INIT_FLAGS + [arg])[..2];
    }
  }

  /** One pod template and one job template never spoil each other's command. */
  method PodThenJob(command: Slice, arg: string) returns (pod: Slice, job: Slice)
    requires command.Valid()
    modifies command.backing
    ensures pod.Valid() && pod.Contents() == old(command.Contents()) + CONFIG_FLAGS
    ensures job.Valid() && job.Contents() == old(command.Contents()) + INIT_FLAGS + [arg]
  {
    pod := PodCommand(command);
    job := JobCommand(command, arg);
    if command.HasRoom(2) {
      assert pod.Contents() == command.Contents() + command.backing[command.len..command.len + 2];
    }
  }

  method JobThenPod(command: Slice, arg: string) returns (pod: Slice, job: Slice)
    requires command.Valid()
    modifies command.backing
    ensures pod.Valid() && pod.Contents() == old(command.Contents()) + CONFIG_FLAGS
    ensures job.Valid() && job.Contents() == old(command.Contents()) + INIT_FLAGS + [arg]
  {
    job := JobCommand(command, arg);
    ghost var tail := (INIT_FLAGS + [arg])[2..];
    if command.HasRoom(6) {
      assert command.backing[command.len + 2..][..4] == job.Contents()[command.len + 2..] == tail;
    }
    pod := PodCommand(command);
    if command.HasRoom(6) {
      assert command.backing[command.len..command.len + 2] == pod.Contents()[command.len..] == CONFIG_FLAGS;
      assert command.backing[command.len + 2..][..4] == tail;
      assert job.Contents() ==
        command.Contents() + command.backing[command.len..command.len + 2] + command.backing[command.len + 2..][..4];
      assert INIT_FLAGS + [arg] == CONFIG_FLAGS + tail;
    }
  }

  /** Two job templates do: the first command survives exactly when the capacity does not
      suffice for a job command, or both install the same modules. */
  method TwoJobs(command: Slice, arg: string, arg': string) returns (first: Slice, second: Slice)
    requires command.Valid()
    modifies command.backing
    ensures second.Valid() && second.Contents() == old(command.Contents()) + INIT_FLAGS + [arg']
    ensures first.Valid()
    ensures first.Contents() == old(command.Contents()) + INIT_FLAGS + [arg] <==> !command.HasRoom(6) || arg == arg'
  {
    first := JobCommand(command, arg);
    second := JobCommand(command, arg');
    if command.HasRoom(6) {
      assert first.Contents() == second.Contents();
      ghost var prefix := old(command.Contents()) + INIT_FLAGS;
      assert (prefix + [arg])[|prefix|] == arg && (prefix + [arg'])[|prefix|] == arg';
    }
  }
}
