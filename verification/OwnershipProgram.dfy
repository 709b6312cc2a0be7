/**
 The two programs of scripts/run_native_kvm_openstack.py, written as they run: they keep the
 manifest in memory, replace files, call the cloud and poll, while others act between the calls.

 Every method takes the steps of Ownership one by one, so whatever an execution does, up to
 any crash, is a run there.
 */
module OwnershipProgram {
  import opened Bytes
  import opened Ownership
  import Proofs = OwnershipProofs

  predicate Foreign(e: Event) {
    e.Appear? || e.Abandon? || e.Disappear? || e.Touch? || e.LoseManifest?
  }

  datatype Outcome = NoOp | Uncertain | Failed | Certified

  class Session {
    var cloud: Cloud
    var disk: Disk
    var deleted: seq<Id>
    /** What others do, one move for each pause. */
    var schedule: seq<Event>
    ghost var control: Control
    ghost const start: World
    ghost var trace: seq<Event>

    ghost function View(): World
      reads this
    {
      World(cloud, disk, control, deleted)
    }

    ghost predicate Valid()
      reads this
    {
      View() == Run(start, trace)
    }

    constructor (cloud: Cloud, disk: Disk, schedule: seq<Event>)
      ensures Valid() && View() == World(cloud, disk, Idle, []) && start == View() && this.schedule == schedule
    {
      this.cloud, this.disk, deleted, this.schedule := cloud, disk, [], schedule;
      control, trace := Idle, [];
      start := World(cloud, disk, Idle, []);
    }

    /** The state has taken step `e`. */
    ghost method Took(before: World, e: Event)
      requires before == Run(start, trace)
      requires cloud == Step(before, e).cloud && disk == Step(before, e).disk && deleted == Step(before, e).deleted
      modifies this`control, this`trace
      ensures Valid() && View() == Step(before, e)
    {
      trace := trace + [e];
      control := Step(before, e).control;
      assert trace[..|trace| - 1] == old(trace);
    }

    /** Others may move. */
    method Pause()
      requires Valid()
      modifies this`cloud, this`disk, this`schedule, this`control, this`trace
      ensures Valid() && control == old(control) && disk.intent == old(disk.intent)
      ensures schedule == if old(schedule) == [] then [] else old(schedule)[1..]
    {
      if schedule != [] {
        var e := schedule[0];
        schedule := schedule[1..];
        if Foreign(e) {
          ghost var before := View();
          var after := Others(World(cloud, disk, Idle, deleted), e);
          cloud, disk := after.cloud, after.disk;
          Took(before, e);
        }
      }
    }

    /** The intent goes first when a create is announced; then the manifest is replaced. */
    method WriteManifest(m: Manifest, ghost next: Control)
      requires Valid() && control == Save(m, next)
      modifies this
      ensures Valid() && control == next && disk.manifest == Some(m) && deleted == old(deleted) &&
              |schedule| <= old(|schedule|)
    {
      if m.inflight.Some? && !disk.intent {
        ghost var before := View();
        disk := disk.(intent := true);
        Took(before, Go);
        Pause();
      }
      ghost var before := View();
      disk := disk.(manifest := Some(m));
      Took(before, Go);
    }

    /** Lists one kind; a resource with the name but without the marks is an error. */
    method ListCandidates(k: Kind) returns (ok: bool, found: set<Id>)
      ensures ok == !Imposter(cloud, k) && (ok ==> found == Candidates(cloud, k))
    {
      var unseen := cloud.live.Keys;
      found := {};
      while unseen != {}
        invariant unseen <= cloud.live.Keys
        invariant found == set id | id in cloud.live && id !in unseen && Candidate(cloud.live[id], k)
        invariant forall id | id in cloud.live && id !in unseen ::
                    cloud.live[id].kind == k ==> cloud.live[id].named ==> cloud.live[id].owned
      {
        var id :| id in unseen;
        var r := cloud.live[id];
        if r.kind == k && r.named && !r.owned {
          return false, found;
        }
        if Candidate(r, k) {
          found := found + {id};
        }
        unseen := unseen - {id};
      }
      return true, found;
    }

    /** Records what the clouds hold of the operation, kind by kind. */
    method DiscoverInflight(recorded: Manifest) returns (ok: bool, m: Manifest)
      requires Valid() && control == Discover(recorded, REMOVAL)
      modifies this
      ensures Valid() && control == if ok then Settled(m) else Idle
    {
      m := recorded;
      for i := 0 to |REMOVAL|
        invariant Valid() && control == Discover(m, REMOVAL[i..])
      {
        var k := REMOVAL[i];
        Pause();
        ghost var before := View();
        var listed, found := ListCandidates(k);
        AtMostOneIsSmall(found);
        if !listed || |found| > 1 {
          Took(before, Go);
          return false, m;
        }
        if found != {} && k !in m.ids {
          var id :| id in found;
          m := m.(ids := m.ids[k := id]);
          Took(before, Go);
          WriteManifest(m, Discover(m, REMOVAL[i..][1..]));
        } else {
          Took(before, Go);
          if found != {} {
            var id :| id in found;
            if m.ids[k] != id {
              return false, m;
            }
          }
        }
      }
      Took(View(), Go);
      return true, m;
    }

    /** Polls one resource, until it is gone, its deletion failed, or the time is up. */
    method WaitUntilAbsent(m: Manifest, ghost todo: seq<Kind>, k: Kind) returns (ok: bool)
      requires Valid() && control == Vanish(m, todo) && todo != [] && k == todo[0] && k in m.ids
      modifies this
      ensures Valid() && control == if ok then Remove(m, todo[1..]) else Idle
    {
      while true
        invariant Valid() && control == Vanish(m, todo)
        decreases |schedule|
      {
        var late := schedule == [];
        Pause();
        ghost var before := View();
        if !Found(cloud, k, m.ids[k]) {
          Took(before, Go);
          return true;
        }
        if cloud.live[m.ids[k]].broken {
          Took(before, Go);
          return false;
        }
        if late {
          Took(before, Crash);
          return false;
        }
      }
    }

    /** Deletes the recorded resource of one kind, if its lookup shows that it is the operation's. */
    method RemoveKind(m: Manifest, ghost todo: seq<Kind>, k: Kind) returns (ok: bool)
      requires Valid() && control == Remove(m, todo) && todo != [] && k == todo[0]
      modifies this
      ensures Valid() && control == if ok then Remove(m, todo[1..]) else Idle
    {
      if k !in m.ids {
        Took(View(), Go);
        return true;
      }
      var id := m.ids[k];
      while true
        invariant Valid() && control == Remove(m, todo)
        decreases |schedule|
      {
        var late := schedule == [];
        Pause();
        ghost var before := View();
        if !Found(cloud, k, id) {
          Took(before, Go);
          break;
        }
        var r := cloud.live[id];
        if Refused(m, k, r) {
          Took(before, Go);
          return false;
        }
        if MustWait(k, r) {
          if late {
            Took(before, Crash);
            return false;
          }
        } else {
          Took(before, Go);
          ok := CallDelete(m, todo, k, id);
          if !ok {
            return;
          }
          break;
        }
      }
      ok := WaitUntilAbsent(m, todo, k);
    }

    /** The cloud decides whether the delete takes effect before the call returns. */
    method CallDelete(m: Manifest, ghost todo: seq<Kind>, k: Kind, id: Id) returns (ok: bool)
      requires Valid() && control == Delete(m, todo) && todo != [] && k == todo[0] && k in m.ids && id == m.ids[k]
      modifies this
      ensures Valid() && control == if ok then Vanish(m, todo) else Idle
      ensures deleted == old(deleted) + [id] && |schedule| <= old(|schedule|)
    {
      Pause();
      ghost var before := View();
      ok := Found(cloud, k, id);
      deleted := deleted + [id];
      var now: bool := *;
      if ok && now {
        cloud := cloud.(live := cloud.live - {id});
        Took(before, DeleteNow);
      } else {
        Took(before, Go);
      }
    }

    /** Nothing of any kind may have the operation's name or marks. */
    method RequireAbsent(m: Manifest) returns (ok: bool)
      requires Valid() && control == Sweep(m, REMOVAL)
      modifies this
      ensures Valid() && control == if ok then Sweep(m, []) else Idle
    {
      for i := 0 to |REMOVAL|
        invariant Valid() && control == Sweep(m, REMOVAL[i..])
      {
        Pause();
        ghost var before := View();
        var listed, found := ListCandidates(REMOVAL[i]);
        if !listed {
          ImposterIsCandidate(cloud, REMOVAL[i]);
        }
        Took(before, Go);
        if !listed || found != {} {
          return false;
        }
      }
      return true;
    }

    method RemoveRecorded(m: Manifest) returns (ok: bool)
      requires Valid() && control == Remove(m, REMOVAL)
      modifies this
      ensures Valid() && control == if ok then Sweep(m, REMOVAL) else Idle
    {
      for i := 0 to |REMOVAL|
        invariant Valid() && control == Remove(m, REMOVAL[i..])
      {
        ok := RemoveKind(m, REMOVAL[i..], REMOVAL[i]);
        if !ok {
          return;
        }
      }
      Took(View(), Go);
      return true;
    }

    /** The certificate is refused as long as the outcome of a create is unknown. */
    method Certify(m: Manifest) returns (ok: bool)
      requires Valid() && control == Sweep(m, REMOVAL)
      modifies this
      ensures Valid() && control == Idle
      ensures ok ==> m.inflight.None? && disk.manifest == Some(m.(verified := true))
    {
      ok := RequireAbsent(m);
      if !ok {
        return;
      }
      Took(View(), Go);
      if m.inflight.Some? {
        return false;
      }
      WriteManifest(m.(verified := true), Idle);
    }

    /** Loads the manifest, and withdraws an earlier certificate before anything else. */
    method Load() returns (m: Manifest)
      requires Valid() && control == Idle && disk.manifest.Some?
      modifies this
      ensures Valid() && control == Discover(m, REMOVAL)
    {
      m := disk.manifest.value;
      Took(View(), Clean);
      if m.verified {
        m := m.(verified := false);
        WriteManifest(m, Discover(m, REMOVAL));
      }
    }

    /** A create is no longer in flight once its resource is recorded. */
    method Settle(discovered: Manifest) returns (m: Manifest)
      requires Valid() && control == Settled(discovered)
      modifies this
      ensures Valid() && control == Remove(m, REMOVAL)
    {
      m := discovered;
      if m.inflight.Some? && m.inflight.value in m.ids {
        m := m.(inflight := None);
        WriteManifest(m, Remove(m, REMOVAL));
      }
    }

    method CleanupManifest() returns (outcome: Outcome)
      requires Valid() && control == Idle
      modifies this
      ensures Valid() && control == Idle
      ensures outcome == NoOp <==> old(NothingToClean(View()))
      ensures outcome == Uncertain <==> old(disk.manifest.None? && disk.intent)
      ensures outcome == Certified ==> disk.manifest.Some? && disk.manifest.value.verified
    {
      if disk.manifest.None? {
        Took(View(), Clean);
        return if disk.intent then Uncertain else NoOp;
      }
      outcome := Failed;
      var m := Load();
      var ok;
      ok, m := DiscoverInflight(m);
      if !ok { return; }
      m := Settle(m);
      ok := RemoveRecorded(m);
      if !ok { return; }
      ok := Certify(m);
      if ok {
        outcome := Certified;
      }
    }

    /** The creates of a proof run, in order. */
    method CreateResources() returns (ok: bool)
      requires Valid() && control == Idle
      modifies this
      ensures Valid() && control == Idle
      ensures !old(NothingToClean(View())) ==> !ok && View() == old(View())
      ensures ok ==> disk.manifest.Some? && forall k | k in CREATION :: k in disk.manifest.value.ids
    {
      Took(View(), Prove);
      if disk.manifest.Some? || disk.intent {
        return false;
      }
      var m := FRESH;
      WriteManifest(m, Announce(m, CREATION));
      for i := 0 to |CREATION|
        invariant Valid() && control == Announce(m, CREATION[i..]) && disk.manifest == Some(m)
        invariant forall j | 0 <= j < i :: CREATION[j] in m.ids
      {
        ok, m := CreateOne(m, CREATION[i..], CREATION[i]);
        if !ok {
          return;
        }
      }
      Took(View(), Go);
      return true;
    }

    /** Announces one create on disk, calls it, and records the id that it returns. */
    method CreateOne(before: Manifest, ghost todo: seq<Kind>, k: Kind) returns (ok: bool, m: Manifest)
      requires Valid() && control == Announce(before, todo) && todo != [] && k == todo[0]
      modifies this
      ensures Valid() && control == if ok then Announce(m, todo[1..]) else Idle
      ensures ok ==> disk.manifest == Some(m) && m.ids.Keys == before.ids.Keys + {k}
    {
      Took(View(), Go);
      m := before.(inflight := Some(k));
      WriteManifest(m, Create(m, todo));
      CallCreate(m, todo, k);
      if k !in cloud.born {
        Took(View(), Crash);
        return false, m;
      }
      var id := cloud.born[k];
      Took(View(), Go);
      m := Manifest(m.ids[k := id], None, m.verified);
      WriteManifest(m, Announce(m, todo[1..]));
      return true, m;
    }

    /** Whether and when the resource comes is up to the cloud. */
    method CallCreate(m: Manifest, ghost todo: seq<Kind>, k: Kind)
      requires Valid() && control == Create(m, todo) && todo != [] && k == todo[0]
      modifies this
      ensures Valid() && control == Await(m, todo)
    {
      Pause();
      ghost var before := View();
      cloud := cloud.(pending := cloud.pending + {k}, issued := cloud.issued + {k});
      Took(before, Go);
      Pause();
    }
  }

  lemma AtMostOneIsSmall(ids: set<Id>)
    ensures AtMostOne(ids) <==> |ids| <= 1
  {
    if ids != {} {
      var id :| id in ids;
      var others := ids - {id};
      assert |others| == |ids| - 1;
      if |ids| <= 1 {
        assert others == {};
        assert ids == {id};
      }
    }
  }

  lemma ImposterIsCandidate(c: Cloud, k: Kind)
    requires Imposter(c, k)
    ensures Candidates(c, k) != {}
  {
    var id :| id in c.live && c.live[id].kind == k && c.live[id].named && !c.live[id].owned;
    assert id in Candidates(c, k);
  }

  /** What holds of runs holds of executions: at whatever point this one stopped, its files tell the truth. */
  lemma ExecutionTellsTheTruth(s: Session)
    requires s.Valid() && Initial(s.start)
    ensures s.disk.manifest.Some? && s.disk.manifest.value.verified ==>
              s.cloud.pending == {} && forall id | id in s.cloud.live :: !Mine(s.cloud, id)
    ensures s.disk.manifest.Some? && s.disk.manifest.value.inflight.None? ==>
              forall id | Mine(s.cloud, id) :: id in s.disk.manifest.value.ids.Values
    ensures Proofs.NothingLost(s.trace) && s.cloud.issued != {} ==> s.disk.manifest.Some?
    ensures Proofs.NothingLost(s.trace) ==>
              forall k | k in s.cloud.pending :: s.disk.manifest.Some? && s.disk.manifest.value.inflight == Some(k)
    ensures NothingToClean(s.View()) ==> s.cloud.issued == {}
    ensures forall id | id in s.deleted :: Mine(s.cloud, id)
  {
    Proofs.RunKeeps(s.start, s.trace);
    Proofs.WriteAhead(s.start, s.trace);
    if Proofs.NothingLost(s.trace) {
      Proofs.WriteAheadOnDisk(s.start, s.trace);
    }
    Proofs.CertificateIsTrue(s.start, s.trace);
    Proofs.DeletesAreOwn(s.start, s.trace);
    if s.disk.manifest.Some? && s.disk.manifest.value.inflight.None? {
      var m := s.disk.manifest.value;
      forall id | Mine(s.cloud, id) ensures id in m.ids.Values {
        var k :| k in s.cloud.born && s.cloud.born[k] == id;
        assert m.ids[k] == id;
      }
    }
  }
}
