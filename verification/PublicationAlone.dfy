/**
 What a publisher that nobody disturbs can achieve: it succeeds exactly where the remote state
 allows it, and publishes everything that is absent.
 */
module PublicationAlone {
  import opened Bytes
  import opened Publication

  /** The tag, the metadata and every asset are absent or as this publisher wants them. */
  predicate Publishable(e: Expected, r: Remote) {
    && (r.tag.Some? ==> r.tag.value == e.sha)
    && (r.release.Some? ==> r.release.value.meta == e.meta && Right(e, r.release.value))
  }

  // ----- Success needs such a remote state

  /** The release only grew by assets, and what was not complete still is not. */
  ghost predicate StillLacks(a: Release, b: Release) {
    ReleaseGrows(a, b) && forall n | n in a.assets && !a.assets[n].complete :: !b.assets[n].complete
  }

  /** What a lone publisher makes of the remote state `a`, and what it has seen of it. */
  ghost predicate Lone(a: Remote, r: Remote, p: Phase) {
    && (a.tag.Some? ==> r.tag == a.tag)
    && (a.release.Some? ==>
          && r.release.Some? && StillLacks(a.release.value, r.release.value)
          && (Snapshot(p).Some? ==> StillLacks(a.release.value, Snapshot(p).value)))
  }

  lemma PublisherIsLone(e: Expected, a: Remote, r: Remote, p: Phase, c: Choice)
    requires Lone(a, r, p)
    ensures var m := Publisher(e, r, p, c); Lone(a, m.remote, m.phase)
  {
    SnapshotMoves(e, r, p, c);
  }

  lemma {:induction false} RunIsLone(all: seq<Expected>, w: World, i: nat, more: seq<Event>)
    requires |all| == |w.phases| && i < |all| && w.phases[i] == ReadTag && Undisturbed(more, i)
    ensures var v := Run(all, w, more); Lone(w.remote, v.remote, v.phases[i])
    decreases more
  {
    if more != [] {
      var before, x := more[..|more| - 1], more[|more| - 1];
      assert x in more && forall y | y in before :: y in more;
      RunIsLone(all, w, i, before);
      var v := Run(all, w, before);
      PublisherIsLone(all[i], w.remote, v.remote, v.phases[i], x.choice);
      assert Run(all, w, more) == Step(all, v, x);
    }
  }

  lemma SuccessNeeds(all: seq<Expected>, w: World, i: nat, more: seq<Event>)
    requires |all| == |w.phases| && Initial(w) && i < |all| && Undisturbed(more, i)
    requires Run(all, w, more).phases[i].Done?
    ensures Publishable(all[i], w.remote)
  {
    RunIsLone(all, w, i, more);
    RunKnows(all, w, more);
    var e, v := all[i], Run(all, w, more);
    assert Knows(e, v.remote, v.phases[i]);
    if w.remote.release.Some? {
      var a, s := w.remote.release.value, v.phases[i].seen;
      assert StillLacks(a, s);
      forall n | n in a.assets ensures a.assets[n].complete && n in e.assets && a.assets[n].digest == e.assets[n] {
        assert n in s.assets && n in e.assets && Verified(e, s, n);
      }
    }
  }

  // ----- And such a remote state is enough

  const Plain := Choice(None, true, true)

  function Uploading(attach: bool, attempt: nat, todo: set<Name>): Phase {
    if attach then AttachAssets(todo) else Publication.Upload(attempt, todo)
  }

  /** The release with the assets in `todo` as this publisher wants them. */
  function With(e: Expected, s: Release, todo: set<Name>): Release
    requires todo <= e.assets.Keys
  {
    s.(assets := s.assets + map n | n in todo :: Stored(e.assets[n], true))
  }

  lemma UploadsOne(all: seq<Expected>, w: World, i: nat, s: Release, attach: bool, attempt: nat, todo: set<Name>,
                   n: Name)
    returns (t: Release, u: World)
    requires |all| == |w.phases| && i < |all| && w.phases[i] == Uploading(attach, attempt, todo)
    requires w.remote.release == Some(s) && n in todo && n in all[i].assets && n !in s.assets
    ensures t == s.(assets := s.assets[n := Stored(all[i].assets[n], true)])
    ensures u == World(w.remote.(release := Some(t)), w.phases[i := Uploading(attach, attempt, todo - {n})])
    ensures u == Step(all, w, Request(i, Choice(Some(n), true, true)))
  {
    t := s.(assets := s.assets[n := Stored(all[i].assets[n], true)]);
    u := World(w.remote.(release := Some(t)), w.phases[i := Uploading(attach, attempt, todo - {n})]);
  }

  lemma OneAndTheOthers(e: Expected, s: Release, t: Release, todo: set<Name>, n: Name)
    requires todo <= e.assets.Keys && n in todo && todo !! s.assets.Keys
    requires t == s.(assets := s.assets[n := Stored(e.assets[n], true)])
    ensures With(e, t, todo - {n}) == With(e, s, todo) && todo - {n} !! t.assets.Keys
  {
    assert With(e, t, todo - {n}).assets == With(e, s, todo).assets;
  }

  /** Every absent asset is uploaded, one by one. */
  lemma {:induction false} UploadsAll(all: seq<Expected>, w: World, i: nat, s: Release, attach: bool, attempt: nat,
                                      todo: set<Name>)
    returns (more: seq<Event>)
    requires |all| == |w.phases| && i < |all| && w.phases[i] == Uploading(attach, attempt, todo)
    requires w.remote.release == Some(s) && todo <= all[i].assets.Keys && todo !! s.assets.Keys
    ensures Undisturbed(more, i)
    ensures Run(all, w, more) ==
            World(w.remote.(release := Some(With(all[i], s, todo))), w.phases[i := Uploading(attach, attempt, {})])
    decreases |todo|
  {
    more := [];
    if todo == {} {
      assert With(all[i], s, todo) == s;
      assert w.phases[i := w.phases[i]] == w.phases;
    } else {
      var n :| n in todo;
      var x := Request(i, Choice(Some(n), true, true));
      var t, u := UploadsOne(all, w, i, s, attach, attempt, todo, n);
      OneAndTheOthers(all[i], s, t, todo, n);
      hide With, Uploading, Step;
      var rest := UploadsAll(all, u, i, t, attach, attempt, todo - {n});
      more := Before(all, w, i, x, u, rest);
      assert u.phases[i := Uploading(attach, attempt, {})] == w.phases[i := Uploading(attach, attempt, {})];
    }
  }

  /** One request in front of a run. */
  lemma Before(all: seq<Expected>, w: World, i: nat, x: Event, u: World, rest: seq<Event>) returns (more: seq<Event>)
    requires |all| == |w.phases| && u == Step(all, w, x) && x.Request? && x.who == i && Undisturbed(rest, i)
    ensures |u.phases| == |all| && Undisturbed(more, i) && Run(all, w, more) == Run(all, u, rest)
  {
    more := [x] + rest;
    RunSnoc(all, w, [], x);
    assert [] + [x] == [x];
    RunAppend(all, w, [x], rest);
  }

  /** One request behind a run. */
  lemma Behind(all: seq<Expected>, w: World, i: nat, events: seq<Event>, x: Event) returns (more: seq<Event>)
    requires |all| == |w.phases| && x.Request? && x.who == i && Undisturbed(events, i)
    ensures Undisturbed(more, i) && Run(all, w, more) == Step(all, Run(all, w, events), x)
  {
    more := events + [x];
    RunSnoc(all, w, events, x);
  }

  /** From the release as it is read to the end: what is there is checked, what is absent is uploaded. */
  lemma Completes(all: seq<Expected>, w: World, i: nat, s: Release) returns (more: seq<Event>)
    requires |all| == |w.phases| && i < |all| && w.phases[i] == Check(s, 0) && w.remote.release == Some(s)
    requires s.meta == all[i].meta && Right(all[i], s)
    ensures Undisturbed(more, i) && Run(all, w, more).phases[i].Done?
  {
    var e := all[i];
    if s.assets.Keys == e.assets.Keys {
      more := Checking(all, w, i, s, 0);
    } else {
      more := Repairs(all, w, i, s);
    }
  }

  lemma Repairs(all: seq<Expected>, w: World, i: nat, s: Release) returns (more: seq<Event>)
    requires |all| == |w.phases| && i < |all| && w.phases[i] == Check(s, 0) && w.remote.release == Some(s)
    requires s.meta == all[i].meta && Right(all[i], s) && s.assets.Keys != all[i].assets.Keys
    ensures Undisturbed(more, i) && Run(all, w, more).phases[i].Done?
  {
    var e, x := all[i], Request(i, Plain);
    var missing := e.assets.Keys - s.assets.Keys;
    assert CompleteNames(s) == s.assets.Keys;
    var u1 := w.(phases := w.phases[i := Download(s, 0, s.assets.Keys)]);
    assert Step(all, w, x) == u1;
    var first := Downloads(all, u1, i, s, 0, s.assets.Keys);
    var u2 := u1.(phases := u1.phases[i := Download(s, 0, {})]);
    var u3 := u2.(phases := u2.phases[i := Publication.Upload(0, missing)]);
    assert Step(all, u2, x) == u3;
    var t := With(e, s, missing);
    var uploads := UploadsAll(all, u3, i, s, false, 0, missing);
    var u4 := World(w.remote.(release := Some(t)), u3.phases[i := Publication.Upload(0, {})]);
    var u5 := u4.(phases := u4.phases[i := Reread(0)]);
    assert Step(all, u4, x) == u5;
    var u6 := u5.(phases := u5.phases[i := Check(t, 1)]);
    assert Step(all, u5, x) == u6;
    assert Exact(e, t);
    var last := Checking(all, u6, i, t, 1);
    more := Before(all, u5, i, x, u6, last);
    more := Before(all, u4, i, x, u5, more);
    RunAppend(all, u3, uploads, more);
    more := uploads + more;
    more := Before(all, u2, i, x, u3, more);
    RunAppend(all, u1, first, more);
    more := first + more;
    more := Before(all, w, i, x, u1, more);
  }

  /** The release is created and all assets are attached to it. */
  lemma Creates(all: seq<Expected>, w: World, i: nat) returns (more: seq<Event>)
    requires |all| == |w.phases| && i < |all| && w.phases[i] == ReadRelease && w.remote.release.None?
    ensures Undisturbed(more, i) && Run(all, w, more).phases[i].Done?
  {
    var e, x := all[i], Request(i, Plain);
    var bare := Release(e.meta, map[]);
    var u1 := w.(phases := w.phases[i := CreateRelease]);
    assert Step(all, w, x) == u1;
    var u2 := World(w.remote.(release := Some(bare)), w.phases[i := AttachAssets(e.assets.Keys)]);
    assert Step(all, u1, x) == u2 by {
      assert u1.phases[i := AttachAssets(e.assets.Keys)] == w.phases[i := AttachAssets(e.assets.Keys)];
    }
    var uploads := UploadsAll(all, u2, i, bare, true, 0, e.assets.Keys);
    var t := With(e, bare, e.assets.Keys);
    var u3 := World(w.remote.(release := Some(t)), u2.phases[i := AttachAssets({})]);
    var u4 := u3.(phases := u3.phases[i := ReadReleaseAgain]);
    assert Step(all, u3, x) == u4;
    var u5 := u4.(phases := u4.phases[i := Check(t, 0)]);
    assert Step(all, u4, x) == u5;
    assert Exact(e, t);
    var last := Checking(all, u5, i, t, 0);
    more := Before(all, u4, i, x, u5, last);
    more := Before(all, u3, i, x, u4, more);
    RunAppend(all, u2, uploads, more);
    more := uploads + more;
    more := Before(all, u1, i, x, u2, more);
    more := Before(all, w, i, x, u1, more);
  }

  lemma FromRelease(all: seq<Expected>, w: World, i: nat) returns (more: seq<Event>)
    requires |all| == |w.phases| && i < |all| && w.phases[i] == ReadRelease && Publishable(all[i], w.remote)
    ensures Undisturbed(more, i) && Run(all, w, more).phases[i].Done?
  {
    if w.remote.release.None? {
      more := Creates(all, w, i);
    } else {
      var s, x := w.remote.release.value, Request(i, Plain);
      var u := w.(phases := w.phases[i := Check(s, 0)]);
      assert Step(all, w, x) == u;
      more := Completes(all, u, i, s);
      more := Before(all, w, i, x, u, more);
    }
  }

  lemma FromTag(all: seq<Expected>, w: World, i: nat) returns (more: seq<Event>)
    requires |all| == |w.phases| && i < |all| && w.phases[i] == ReadTag && Publishable(all[i], w.remote)
    ensures Undisturbed(more, i) && Run(all, w, more).phases[i].Done?
  {
    var x := Request(i, Plain);
    if w.remote.tag.Some? {
      var u := w.(phases := w.phases[i := ReadRelease]);
      assert Step(all, w, x) == u;
      more := FromRelease(all, u, i);
      more := Before(all, w, i, x, u, more);
    } else {
      var u1 := w.(phases := w.phases[i := CreateTag]);
      assert Step(all, w, x) == u1;
      var u2 := World(w.remote.(tag := Some(all[i].sha)), u1.phases[i := ReadTagAgain]);
      assert Step(all, u1, x) == u2;
      var u3 := u2.(phases := u2.phases[i := ReadRelease]);
      assert Step(all, u2, x) == u3;
      more := FromRelease(all, u3, i);
      more := Before(all, u2, i, x, u3, more);
      more := Before(all, u1, i, x, u2, more);
      more := Before(all, w, i, x, u1, more);
    }
  }

  /**
   A publisher that nobody disturbs can succeed if and only if the tag, the metadata and every asset
   are absent or already complete and as it wants them.
   */
  lemma AloneSucceedsIff(all: seq<Expected>, w: World, i: nat)
    requires |all| == |w.phases| && Initial(w) && i < |all|
    ensures CanSucceed(all, w, i) <==> Publishable(all[i], w.remote)
  {
    if Publishable(all[i], w.remote) {
      var more := FromTag(all, w, i);
    }
    if CanSucceed(all, w, i) {
      var more :| Undisturbed(more, i) && Run(all, w, more).phases[i].Done?;
      SuccessNeeds(all, w, i, more);
    }
  }
}
