/**
 One publisher of scripts/publish_development_package.py as it runs: it rereads, uploads what is
 absent and retries, while others add to the release between its requests.

 Every method takes the steps of Publication one by one.
 */
module PublicationProgram {
  import opened Bytes
  import opened Publication

  class Client {
    const expected: Expected
    var remote: Remote
    /** What others turn the remote state into, one proposal for each request. */
    var schedule: seq<Remote>
    ghost const start: World
    ghost var phase: Phase
    ghost var trace: seq<Event>

    ghost function View(): World
      reads this
    {
      World(remote, [phase])
    }

    ghost predicate Valid()
      reads this
    {
      |start.phases| == 1 && Initial(start) && View() == Run([expected], start, trace)
    }

    constructor (expected: Expected, remote: Remote, schedule: seq<Remote>)
      ensures Valid() && phase == ReadTag && this.remote == remote && this.expected == expected &&
              start.remote == remote
    {
      this.expected, this.remote, this.schedule := expected, remote, schedule;
      phase, trace := ReadTag, [];
      start := World(remote, [ReadTag]);
    }

    /** The remote state has taken the step that answers `c`. */
    ghost method Took(before: World, c: Choice)
      requires |start.phases| == 1 && Initial(start) && before == Run([expected], start, trace)
      requires remote == Publisher(expected, before.remote, before.phases[0], c).remote
      modifies this`phase, this`trace
      ensures Valid() && phase == Publisher(expected, before.remote, before.phases[0], c).phase
    {
      RunSnoc([expected], start, trace, Request(0, c));
      phase, trace := Publisher(expected, before.remote, before.phases[0], c).phase, trace + [Request(0, c)];
      assert before.phases[0 := phase] == [phase];
    }

    /** Others may add something. */
    method Others()
      requires Valid()
      modifies this`remote, this`schedule, this`trace
      ensures Valid() && Grows(old(remote), remote)
    {
      if schedule != [] {
        if Grows(remote, schedule[0]) {
          RunSnoc([expected], start, trace, Elsewhere(schedule[0]));
          remote := schedule[0];
          trace := trace + [Elsewhere(remote)];
        }
        schedule := schedule[1..];
      }
    }

    method EnsureTag() returns (ok: bool)
      requires Valid() && phase == ReadTag
      modifies this
      ensures Valid() && phase == if ok then ReadRelease else Failed
    {
      var c := Choice(None, true, true);
      Others();
      var tag := remote.tag;
      Took(View(), c);
      if tag.None? {
        Others();
        ghost var before := View();
        var accepted: bool := *;
        if accepted && remote.tag.None? {
          remote := remote.(tag := Some(expected.sha));
        }
        Took(before, c.(accepted := accepted));
        Others();
        tag := remote.tag;
        Took(View(), c);
        if tag.None? {
          return false;
        }
      }
      return tag.value == expected.sha;
    }

    /** Uploads one absent asset; the server refuses a name that it has. */
    method UploadAsset(name: Name, ghost before: World) returns (c: Choice)
      requires name in expected.assets && before == View()
      modifies this`remote
      ensures c.name == Some(name) && remote == Uploaded(old(remote), name, expected.assets[name], c)
    {
      var accepted: bool, complete: bool := *, *;
      c := Choice(Some(name), accepted, complete);
      remote := Uploaded(remote, name, expected.assets[name], c);
    }

    /** Creates the release and attaches the assets; the call may end early. */
    method Create()
      requires Valid() && phase == CreateRelease
      modifies this
      ensures Valid() && phase == ReadReleaseAgain
    {
      Others();
      ghost var before := View();
      var accepted: bool := *;
      var created := accepted && remote.release.None?;
      if created {
        remote := remote.(release := Some(Release(expected.meta, map[])));
      }
      Took(before, Choice(None, accepted, true));
      if created {
        var todo := expected.assets.Keys;
        while todo != {}
          invariant Valid() && phase == AttachAssets(todo) && todo <= expected.assets.Keys
          decreases |todo|
        {
          var goOn: bool := *;
          if !goOn { break; }
          var name :| name in todo;
          Others();
          before := View();
          var c := UploadAsset(name, before);
          Took(before, c);
          todo := todo - {name};
        }
        Took(View(), Choice(None, true, true));
      }
    }

    method GetRelease() returns (ok: bool, release: Release)
      requires Valid() && phase == ReadRelease
      modifies this
      ensures Valid() && phase == if ok then Check(release, 0) else Failed
    {
      var c := Choice(None, true, true);
      release := Release(0, map[]);
      Others();
      var read := remote.release;
      Took(View(), c);
      if read.None? {
        Create();
        Others();
        read := remote.release;
        Took(View(), c);
        if read.None? {
          return false, release;
        }
      }
      release := read.value;
      ok := release.meta == expected.meta;
    }

    /** Downloads every complete asset of the snapshot and compares its bytes. */
    method DownloadAll(release: Release, attempt: nat) returns (ok: bool)
      requires Valid() && phase == Download(release, attempt, CompleteNames(release)) &&
               release.assets.Keys <= expected.assets.Keys
      modifies this
      ensures Valid() && phase == if ok then Download(release, attempt, {}) else Failed
    {
      var todo := CompleteNames(release);
      while todo != {}
        invariant Valid() && phase == Download(release, attempt, todo) && todo <= expected.assets.Keys
        decreases |todo|
      {
        var name :| name in todo;
        Others();
        var same := remote.release.Some? && Complete(remote.release.value, name) &&
            remote.release.value.assets[name].digest == expected.assets[name];
        Took(View(), Choice(Some(name), true, true));
        if !same {
          return false;
        }
        todo := todo - {name};
      }
      return true;
    }

    method UploadAbsent(release: Release, attempt: nat)
      requires Valid() && phase == Upload(attempt, expected.assets.Keys - release.assets.Keys)
      modifies this
      ensures Valid() && phase == Reread(attempt)
    {
      var todo := expected.assets.Keys - release.assets.Keys;
      while todo != {}
        invariant Valid() && phase == Upload(attempt, todo) && todo <= expected.assets.Keys
        decreases |todo|
      {
        var name :| name in todo;
        Others();
        ghost var before := View();
        var c := UploadAsset(name, before);
        Took(before, c);
        todo := todo - {name};
      }
      Took(View(), Choice(None, true, true));
    }

    /** Verifies what is uploaded, uploads only what is absent, and waits for concurrent publishers. */
    method VerifyOrRepair(first: Release) returns (ok: bool)
      requires Valid() && phase == Check(first, 0)
      modifies this
      ensures Valid() && (if ok then phase.Done? else phase == Failed)
    {
      var release := first;
      var c := Choice(None, true, true);
      for attempt := 0 to ATTEMPTS
        invariant Valid() && phase == if attempt < ATTEMPTS then Check(release, attempt) else Failed
      {
        Took(View(), c);
        if !(release.assets.Keys <= expected.assets.Keys) {
          return false;
        }
        ok := DownloadAll(release, attempt);
        if !ok { return; }
        var done := CompleteNames(release) == expected.assets.Keys;
        Took(View(), c);
        if done {
          return true;
        }
        UploadAbsent(release, attempt);
        Others();
        var reread := remote.release;
        Took(View(), c);
        if reread.None? || reread.value.meta != expected.meta {
          return false;
        }
        release := reread.value;
      }
      return false;
    }

    /** Success means that the tag, the metadata and every asset are published with the local bytes. */
    method Publish() returns (ok: bool)
      requires Valid() && phase == ReadTag
      modifies this
      ensures Valid() && Grows(start.remote, remote)
      ensures ok ==> phase.Done? && Published(expected, remote)
      ensures !ok ==> phase == Failed
    {
      ok := EnsureTag();
      if ok {
        var release;
        ok, release := GetRelease();
        if ok {
          ok := VerifyOrRepair(release);
        }
      }
      NothingIsReplaced([expected], start, trace);
      SuccessMeansPublished([expected], start, trace, 0);
    }
  }
}
