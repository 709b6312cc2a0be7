/**
 The immutable publication of scripts/publish_development_package.py: any number of publishers
 of one tag, and others, against a server that only grows.

 A step is one request.  A digest stands for the bytes that it was computed from.
 */
module Publication {
  import opened Bytes

  type Name = string
  type Digest = nat
  type Sha = nat
  type Meta = nat

  /** An asset is declared when its upload starts and complete when it ends. */
  datatype Stored = Stored(digest: Digest, complete: bool)

  datatype Release = Release(meta: Meta, assets: map<Name, Stored>)

  datatype Remote = Remote(tag: Option<Sha>, release: Option<Release>)

  /** What one publisher wants the tag, the metadata and the assets to be. */
  datatype Expected = Expected(sha: Sha, meta: Meta, assets: map<Name, Digest>)

  // ----- The server

  /** What has been declared keeps its bytes, completion is final, and nothing goes away. */
  predicate ReleaseGrows(a: Release, b: Release) {
    && a.meta == b.meta && a.assets.Keys <= b.assets.Keys
    && forall n | n in a.assets :: b.assets[n].digest == a.assets[n].digest && (a.assets[n].complete ==>
         b.assets[n].complete)
  }

  predicate Grows(a: Remote, b: Remote) {
    && (a.tag.Some? ==> b.tag == a.tag)
    && (a.release.Some? ==> b.release.Some? && ReleaseGrows(a.release.value, b.release.value))
  }

  /** An upload of a name that exists is refused, and so is any other that the server fails. */
  function Uploaded(r: Remote, name: Name, digest: Digest, c: Choice): Remote {
    if c.accepted && r.release.Some? && name !in r.release.value.assets then
      var assets := r.release.value.assets[name := Stored(digest, c.complete)];
      r.(release := Some(r.release.value.(assets := assets)))
    else r
  }

  // ----- The local directory

  const SUMS: Name := "SHA256SUMS"

  predicate EndsWith(n: Name, suffix: string) {
    |suffix| <= |n| && n[|n| - |suffix|..] == suffix
  }

  predicate Wheel(n: Name) {
    EndsWith(n, ".whl")
  }

  predicate SourceDistribution(n: Name) {
    EndsWith(n, ".tar.gz")
  }

  /** The checksum list names exactly one wheel and one source distribution, and the digests of the files agree. */
  predicate Accepted(entries: map<Name, Digest>, files: map<Name, Digest>) {
    && SUMS in files && |files| == 3 && entries.Keys == files.Keys - {SUMS}
    && |set n | n in entries && Wheel(n)| == 1 && |set n | n in entries && SourceDistribution(n)| == 1
    && forall n | n in entries :: files[n] == entries[n]
  }

  function ManifestAssets(entries: map<Name, Digest>, files: map<Name, Digest>): Option<map<Name, Digest>> {
    if Accepted(entries, files) then Some(files) else None
  }

  // ----- One publisher

  const ATTEMPTS := 5

  datatype Phase =
    | ReadTag
    | CreateTag
    | ReadTagAgain
    | ReadRelease
    | CreateRelease
    | AttachAssets(todo: set<Name>)
    | ReadReleaseAgain
    | Check(seen: Release, attempt: nat)
    | Download(seen: Release, attempt: nat, todo: set<Name>)
    | Upload(attempt: nat, todo: set<Name>)
    | Reread(attempt: nat)
    | Done(seen: Release)
    | Failed

  /** The asset that a request is about, whether the server accepts it, and whether an upload ends at once. */
  datatype Choice = Choice(name: Option<Name>, accepted: bool, complete: bool)

  datatype Moved = Moved(remote: Remote, phase: Phase)

  predicate Complete(s: Release, n: Name) {
    n in s.assets && s.assets[n].complete
  }

  function CompleteNames(s: Release): set<Name> {
    set n | n in s.assets && s.assets[n].complete
  }

  function TagChecked(e: Expected, tag: Sha): Phase {
    if tag == e.sha then ReadRelease else Failed
  }

  function ReleaseChecked(e: Expected, s: Release, attempt: nat): Phase {
    if s.meta == e.meta then Check(s, attempt) else Failed
  }

  /** A snapshot with other names is an error; otherwise everything that is complete is downloaded. */
  function CheckPhase(e: Expected, s: Release, attempt: nat): Phase {
    if s.assets.Keys <= e.assets.Keys then Download(s, attempt, CompleteNames(s)) else Failed
  }

  function DownloadPhase(e: Expected, r: Remote, s: Release, attempt: nat, todo: set<Name>, name: Option<Name>): Phase {
    if todo == {} then
      if CompleteNames(s) == e.assets.Keys then Done(s) else Upload(attempt, e.assets.Keys - s.assets.Keys)
    else if name.Some? && name.value in todo then
      var n := name.value;
      if r.release.Some? && Complete(r.release.value, n) && n in e.assets &&
          r.release.value.assets[n].digest == e.assets[n]
      then Download(s, attempt, todo - {n})
      else Failed
    else Download(s, attempt, todo)
  }

  /** The snapshot after the last repair is read, but not looked at. */
  function RereadPhase(e: Expected, r: Remote, attempt: nat): Phase {
    if r.release.None? || r.release.value.meta != e.meta || attempt + 1 >= ATTEMPTS then Failed
    else Check(r.release.value, attempt + 1)
  }

  predicate Picks(e: Expected, c: Choice, todo: set<Name>) {
    c.name.Some? && c.name.value in todo && c.name.value in e.assets
  }

  function Publisher(e: Expected, r: Remote, p: Phase, c: Choice): Moved {
    match p
    case ReadTag => Moved(r, if r.tag.None? then CreateTag else TagChecked(e, r.tag.value))
    case CreateTag => Moved(if c.accepted && r.tag.None? then r.(tag := Some(e.sha)) else r, ReadTagAgain)
    case ReadTagAgain => Moved(r, if r.tag.None? then Failed else TagChecked(e, r.tag.value))
    case ReadRelease => Moved(r, if r.release.None? then CreateRelease else ReleaseChecked(e, r.release.value, 0))
    case CreateRelease =>
      if c.accepted && r.release.None?
          then Moved(r.(release := Some(Release(e.meta, map[]))), AttachAssets(e.assets.Keys))
      else Moved(r, ReadReleaseAgain)
    case AttachAssets(todo) =>
      if Picks(e, c, todo) then Moved(Uploaded(r, c.name.value, e.assets[c.name.value], c),
          AttachAssets(todo - {c.name.value}))
      else Moved(r, ReadReleaseAgain)
    case ReadReleaseAgain => Moved(r, if r.release.None? then Failed else ReleaseChecked(e, r.release.value, 0))
    case Check(s, attempt) => Moved(r, CheckPhase(e, s, attempt))
    case Download(s, attempt, todo) => Moved(r, DownloadPhase(e, r, s, attempt, todo, c.name))
    case Upload(attempt, todo) =>
      if todo == {} then Moved(r, Reread(attempt))
      else if Picks(e, c, todo)
          then Moved(Uploaded(r, c.name.value, e.assets[c.name.value], c), Upload(attempt, todo - {c.name.value}))
      else Moved(r, p)
    case Reread(attempt) => Moved(r, RereadPhase(e, r, attempt))
    case Done(_) => Moved(r, p)
    case Failed => Moved(r, p)
  }

  // ----- All of them

  datatype World = World(remote: Remote, phases: seq<Phase>)

  /** A publisher's request, its end by failure, or anything that others add. */
  datatype Event = Request(who: nat, choice: Choice) | Stop(who: nat) | Elsewhere(remote: Remote)

  function Step(all: seq<Expected>, w: World, e: Event): World
    requires |all| == |w.phases|
  {
    match e
    case Request(who, choice) =>
      if who < |all| then
        var m := Publisher(all[who], w.remote, w.phases[who], choice);
        World(m.remote, w.phases[who := m.phase])
      else w
    case Stop(who) => if who < |all| && !w.phases[who].Done? then w.(phases := w.phases[who := Failed]) else w
    case Elsewhere(remote) => if Grows(w.remote, remote) then w.(remote := remote) else w
  }

  function Run(all: seq<Expected>, w: World, events: seq<Event>): (v: World)
    requires |all| == |w.phases|
    ensures |v.phases| == |all|
    decreases events
  {
    if events == [] then w else Step(all, Run(all, w, events[..|events| - 1]), events[|events| - 1])
  }

  predicate Initial(w: World) {
    forall i | 0 <= i < |w.phases| :: w.phases[i] == ReadTag
  }

  // ----- Immutability

  lemma PublisherGrows(e: Expected, r: Remote, p: Phase, c: Choice)
    ensures Grows(r, Publisher(e, r, p, c).remote)
  {
  }

  lemma GrowsTrans(a: Remote, b: Remote, c: Remote)
    requires Grows(a, b) && Grows(b, c)
    ensures Grows(a, c)
  {
  }

  /** In every interleaving, a tag, the metadata and the bytes of an asset stay what they first were. */
  lemma {:induction false} NothingIsReplaced(all: seq<Expected>, w: World, events: seq<Event>)
    requires |all| == |w.phases|
    ensures Grows(w.remote, Run(all, w, events).remote)
    decreases events
  {
    if events != [] {
      var e := events[|events| - 1];
      var v := Run(all, w, events[..|events| - 1]);
      NothingIsReplaced(all, w, events[..|events| - 1]);
      if e.Request? && e.who < |all| {
        PublisherGrows(all[e.who], v.remote, v.phases[e.who], e.choice);
      }
      GrowsTrans(w.remote, v.remote, Step(all, v, e).remote);
    }
  }

  // ----- Success

  /** The snapshot is still part of the remote state, and some of it is verified. */
  ghost predicate Seen(e: Expected, r: Remote, s: Release) {
    r.tag == Some(e.sha) && s.meta == e.meta && r.release.Some? && ReleaseGrows(s, r.release.value)
  }

  ghost predicate Verified(e: Expected, s: Release, n: Name) {
    Complete(s, n) && n in e.assets && s.assets[n].digest == e.assets[n]
  }

  /** What a publisher knows about the remote state in each phase, whatever is added meanwhile. */
  ghost predicate Knows(e: Expected, r: Remote, p: Phase) {
    match p
    case ReadTag => true
    case CreateTag => true
    case ReadTagAgain => true
    case Failed => true
    case Check(s, _) => Seen(e, r, s)
    case Download(s, _, todo) =>
      && Seen(e, r, s) && s.assets.Keys <= e.assets.Keys
      && forall n | n in CompleteNames(s) && n !in todo :: Verified(e, s, n)
    case Done(s) => Seen(e, r, s) && s.assets.Keys == e.assets.Keys && forall n | n in e.assets :: Verified(e, s, n)
    case _ => r.tag == Some(e.sha)
  }

  lemma KnowsGrows(e: Expected, r: Remote, q: Remote, p: Phase)
    requires Knows(e, r, p) && Grows(r, q)
    ensures Knows(e, q, p)
  {
  }

  lemma DownloadKnows(e: Expected, r: Remote, s: Release, attempt: nat, todo: set<Name>, name: Option<Name>)
    requires Knows(e, r, Download(s, attempt, todo))
    ensures Knows(e, r, DownloadPhase(e, r, s, attempt, todo, name))
  {
    if todo == {} {
      if CompleteNames(s) == e.assets.Keys {
        assert forall n | n in e.assets :: n in CompleteNames(s);
      }
    }
  }

  lemma PublisherKnows(e: Expected, r: Remote, p: Phase, c: Choice)
    requires Knows(e, r, p)
    ensures var m := Publisher(e, r, p, c); Knows(e, m.remote, m.phase)
  {
    match p
    case Download(s, attempt, todo) => DownloadKnows(e, r, s, attempt, todo, c.name);
    case _ =>
  }

  lemma {:induction false} RunKnows(all: seq<Expected>, w: World, events: seq<Event>)
    requires |all| == |w.phases| && Initial(w)
    ensures var v := Run(all, w, events); forall i | 0 <= i < |all| :: Knows(all[i], v.remote, v.phases[i])
    decreases events
  {
    if events != [] {
      var e := events[|events| - 1];
      var v := Run(all, w, events[..|events| - 1]);
      RunKnows(all, w, events[..|events| - 1]);
      var u := Step(all, v, e);
      forall i | 0 <= i < |all| ensures Knows(all[i], u.remote, u.phases[i]) {
        if e.Request? && e.who < |all| {
          PublisherGrows(all[e.who], v.remote, v.phases[e.who], e.choice);
          if i == e.who {
            PublisherKnows(all[i], v.remote, v.phases[i], e.choice);
          } else {
            KnowsGrows(all[i], v.remote, u.remote, v.phases[i]);
          }
        } else if e.Elsewhere? && Grows(v.remote, e.remote) {
          KnowsGrows(all[i], v.remote, u.remote, v.phases[i]);
        }
      }
    }
  }

  /** The tag, the metadata, and every expected asset, complete and with the local bytes. */
  ghost predicate Published(e: Expected, r: Remote) {
    && r.tag == Some(e.sha) && r.release.Some? && r.release.value.meta == e.meta
    && forall n | n in e.assets ::
         n in r.release.value.assets && r.release.value.assets[n] == Stored(e.assets[n], true)
  }

  /**
   Success is true and stays true: whatever else runs, before or after, a publisher that is done
   saw exactly its own names, and its assets are published with its own bytes.
   */
  lemma SuccessMeansPublished(all: seq<Expected>, w: World, events: seq<Event>, i: nat)
    requires |all| == |w.phases| && Initial(w) && i < |all|
    ensures var v := Run(all, w, events);
            v.phases[i].Done? ==>
              Published(all[i], v.remote) && v.phases[i].seen.assets.Keys == all[i].assets.Keys
  {
    RunKnows(all, w, events);
    var v := Run(all, w, events);
    if v.phases[i].Done? {
      forall n | n in all[i].assets ensures v.remote.release.value.assets[n] == Stored(all[i].assets[n], true) {
        assert Verified(all[i], v.phases[i].seen, n);
      }
    }
  }

  // ----- Agreement

  function Snapshot(p: Phase): Option<Release> {
    match p
    case Check(s, _) => Some(s)
    case Download(s, _, _) => Some(s)
    case Done(s) => Some(s)
    case _ => None
  }

  /** Snapshots of one growing release are nested. */
  ghost predicate Nested(p: Phase, q: Phase) {
    var s, t := Snapshot(p), Snapshot(q);
    s.Some? && t.Some? ==> ReleaseGrows(s.value, t.value) || ReleaseGrows(t.value, s.value)
  }

  /** A publisher keeps its snapshot, drops it, or takes the release as it is. */
  lemma SnapshotMoves(e: Expected, r: Remote, p: Phase, c: Choice)
    ensures var s := Snapshot(Publisher(e, r, p, c).phase);
            s.None? || s == Snapshot(p) || (r.release.Some? && s.value == r.release.value)
  {
  }

  lemma {:induction false} SnapshotsAreNested(all: seq<Expected>, w: World, events: seq<Event>)
    requires |all| == |w.phases| && Initial(w)
    ensures var v := Run(all, w, events); forall i, j | 0 <= i < |all| &&
            0 <= j < |all| :: Nested(v.phases[i], v.phases[j])
    decreases events
  {
    if events != [] {
      var e := events[|events| - 1];
      var v := Run(all, w, events[..|events| - 1]);
      SnapshotsAreNested(all, w, events[..|events| - 1]);
      RunKnows(all, w, events[..|events| - 1]);
      if e.Request? && e.who < |all| {
        SnapshotMoves(all[e.who], v.remote, v.phases[e.who], e.choice);
        var q := Publisher(all[e.who], v.remote, v.phases[e.who], e.choice).phase;
        forall j | 0 <= j < |all| ensures Nested(q, v.phases[j]) {
          assert Nested(v.phases[e.who], v.phases[j]);
          assert Knows(all[j], v.remote, v.phases[j]);
        }
      }
    }
  }

  lemma SameSize(a: set<Name>, b: set<Name>)
    requires a <= b && |a| == |b|
    ensures a == b
  {
    if !(b <= a) {
      var n :| n in b && n !in a;
      assert a <= b - {n};
      SubsetSize(a, b - {n});
    }
  }

  lemma {:induction false} SubsetSize(a: set<Name>, b: set<Name>)
    requires a <= b
    ensures |a| <= |b|
  {
    if a != {} {
      var n :| n in a;
      SubsetSize(a - {n}, b - {n});
    }
  }

  /** Two publishers that are done agree exactly when they wanted equally many assets. */
  lemma AgreementIff(all: seq<Expected>, w: World, events: seq<Event>, i: nat, j: nat)
    requires |all| == |w.phases| && Initial(w) && i < |all| && j < |all|
    requires Run(all, w, events).phases[i].Done? && Run(all, w, events).phases[j].Done?
    ensures all[i].sha == all[j].sha && all[i].meta == all[j].meta
    ensures all[i].assets == all[j].assets <==> |all[i].assets| == |all[j].assets|
  {
    var v := Run(all, w, events);
    RunKnows(all, w, events);
    SuccessMeansPublished(all, w, events, i);
    SuccessMeansPublished(all, w, events, j);
    SnapshotsAreNested(all, w, events);
    assert Nested(v.phases[i], v.phases[j]);
    var a, b := all[i].assets.Keys, all[j].assets.Keys;
    assert |a| == |all[i].assets| && |b| == |all[j].assets|;
    if |a| == |b| {
      if a <= b {
        SameSize(a, b);
      } else {
        SameSize(b, a);
      }
      assert forall n | n in a :: v.remote.release.value.assets[n].digest == all[i].assets[n] == all[j].assets[n];
    }
  }

  /** The local checks fix the number of assets, so that publishers of accepted directories always agree. */
  lemma PublishersAgree(all: seq<Expected>, w: World, events: seq<Event>, i: nat, j: nat)
    requires |all| == |w.phases| && Initial(w) && i < |all| && j < |all|
    requires forall k | 0 <= k < |all| :: exists entries, files :: ManifestAssets(entries, files) == Some(all[k].assets)
    requires Run(all, w, events).phases[i].Done? && Run(all, w, events).phases[j].Done?
    ensures all[i] == all[j]
  {
    AgreementIff(all, w, events, i, j);
  }

  lemma {:induction false} RunSnoc(all: seq<Expected>, w: World, events: seq<Event>, e: Event)
    requires |all| == |w.phases|
    ensures Run(all, w, events + [e]) == Step(all, Run(all, w, events), e)
  {
    assert (events + [e])[..|events|] == events;
  }

  // ----- The last repair

  /** The release holds exactly the expected assets, complete and with the local bytes. */
  ghost predicate Exact(e: Expected, s: Release) {
    s.meta == e.meta && s.assets.Keys == e.assets.Keys &&
        forall n | n in e.assets :: s.assets[n] == Stored(e.assets[n], true)
  }

  /** The publisher's requests, with nothing else in between. */
  predicate Undisturbed(more: seq<Event>, i: nat) {
    forall e | e in more :: e.Request? && e.who == i
  }

  lemma {:induction false} RunAppend(all: seq<Expected>, w: World, a: seq<Event>, b: seq<Event>)
    requires |all| == |w.phases|
    ensures Run(all, w, a + b) == Run(all, Run(all, w, a), b)
    decreases |b|
  {
    if b == [] {
      assert a + b == a;
    } else {
      assert (a + b)[..|a + b| - 1] == a + b[..|b| - 1];
      RunAppend(all, w, a, b[..|b| - 1]);
    }
  }

  /** Everything in the release is complete and as it should be; something may still be absent. */
  predicate Right(e: Expected, s: Release) {
    forall n | n in s.assets :: s.assets[n].complete && n in e.assets && s.assets[n].digest == e.assets[n]
  }

  /** What a publisher downloads of such a release. */
  lemma {:induction false} Downloads(all: seq<Expected>, w: World, i: nat, s: Release, attempt: nat, todo: set<Name>)
    returns (more: seq<Event>)
    requires |all| == |w.phases| && i < |all| && w.phases[i] == Download(s, attempt, todo)
    requires w.remote.release == Some(s) && Right(all[i], s) && todo <= s.assets.Keys
    ensures Undisturbed(more, i) && Run(all, w, more) == w.(phases := w.phases[i := Download(s, attempt, {})])
    decreases |todo|
  {
    more := [];
    assert w.phases[i := w.phases[i]] == w.phases;
    if todo != {} {
      var n :| n in todo;
      var e := Request(i, Choice(Some(n), true, true));
      var u := w.(phases := w.phases[i := Download(s, attempt, todo - {n})]);
      assert n in all[i].assets && Step(all, w, e) == u;
      var rest := Downloads(all, u, i, s, attempt, todo - {n});
      more := [e] + rest;
      RunSnoc(all, w, [], e);
      assert [] + [e] == [e];
      RunAppend(all, w, [e], rest);
      assert u.phases[i := Download(s, attempt, {})] == w.phases[i := Download(s, attempt, {})];
    }
  }

  /** What a publisher does with a release that is as it should be. */
  lemma Downloading(all: seq<Expected>, w: World, i: nat, s: Release, attempt: nat, todo: set<Name>)
    returns (more: seq<Event>)
    requires |all| == |w.phases| && i < |all| && w.phases[i] == Download(s, attempt, todo)
    requires w.remote.release == Some(s) && Exact(all[i], s) && todo <= s.assets.Keys
    ensures Undisturbed(more, i) && Run(all, w, more) == w.(phases := w.phases[i := Done(s)])
  {
    more := Downloads(all, w, i, s, attempt, todo);
    assert CompleteNames(s) == all[i].assets.Keys by {
      assert forall n | n in s.assets :: n in all[i].assets;
    }
    var e := Request(i, Choice(None, true, true));
    RunSnoc(all, w, more, e);
    more := more + [e];
  }

  lemma Checking(all: seq<Expected>, w: World, i: nat, s: Release, attempt: nat) returns (more: seq<Event>)
    requires |all| == |w.phases| && i < |all| && w.phases[i] == Check(s, attempt)
    requires w.remote.release == Some(s) && Exact(all[i], s)
    ensures Undisturbed(more, i) && Run(all, w, more) == w.(phases := w.phases[i := Done(s)])
  {
    var e := Request(i, Choice(None, true, true));
    var u := w.(phases := w.phases[i := Download(s, attempt, CompleteNames(s))]);
    assert Step(all, w, e) == u;
    var rest := Downloading(all, u, i, s, attempt, CompleteNames(s));
    more := [e] + rest;
    RunSnoc(all, w, [], e);
    assert [] + [e] == [e];
    RunAppend(all, w, [e], rest);
    assert u.phases[i := Done(s)] == w.phases[i := Done(s)];
  }

  /** A publisher that has failed stays so, whatever happens. */
  lemma {:induction false} FailureStays(all: seq<Expected>, w: World, i: nat, more: seq<Event>)
    requires |all| == |w.phases| && i < |all| && w.phases[i] == Failed
    ensures Run(all, w, more).phases[i] == Failed
    decreases more
  {
    if more != [] {
      FailureStays(all, w, i, more[..|more| - 1]);
    }
  }

  ghost predicate CanSucceed(all: seq<Expected>, w: World, i: nat)
    requires |all| == |w.phases| && i < |all|
  {
    exists more :: Undisturbed(more, i) && Run(all, w, more).phases[i].Done?
  }

  lemma {:induction false} LastRereadFails(all: seq<Expected>, w: World, i: nat, attempt: nat, more: seq<Event>)
    requires |all| == |w.phases| && i < |all| && w.phases[i] == Reread(attempt) && attempt + 1 >= ATTEMPTS &&
             Undisturbed(more, i)
    ensures !Run(all, w, more).phases[i].Done?
    decreases |more|
  {
    if more != [] {
      var u := Step(all, w, more[0]);
      assert u.phases[i] == Failed;
      FailureStays(all, u, i, more[1..]);
      RunSnoc(all, w, [], more[0]);
      assert [] + [more[0]] == [more[0]] && [more[0]] + more[1..] == more;
      RunAppend(all, w, [more[0]], more[1..]);
    }
  }

  /**
   The exact condition under which a publisher that is about to read the release again, and will
   find it exactly as it should be, can still succeed: this was not its last attempt.
   */
  lemma RereadSucceedsIff(all: seq<Expected>, w: World, i: nat, attempt: nat)
    requires |all| == |w.phases| && i < |all| && w.phases[i] == Reread(attempt)
    requires w.remote.release.Some? && Exact(all[i], w.remote.release.value)
    ensures CanSucceed(all, w, i) <==> attempt < 4
  {
    if attempt + 1 < ATTEMPTS {
      var s := w.remote.release.value;
      var e := Request(i, Choice(None, true, true));
      var u := w.(phases := w.phases[i := Check(s, attempt + 1)]);
      assert Step(all, w, e) == u;
      var rest := Checking(all, u, i, s, attempt + 1);
      var more := [e] + rest;
      RunSnoc(all, w, [], e);
      assert [] + [e] == [e];
      RunAppend(all, w, [e], rest);
      assert Undisturbed(more, i) && Run(all, w, more).phases[i].Done?;
    } else {
      forall more | Undisturbed(more, i) ensures !Run(all, w, more).phases[i].Done? {
        LastRereadFails(all, w, i, attempt, more);
      }
    }
  }

  // ----- Concrete runs

  /** One more event, and where it leads. */
  lemma Then(all: seq<Expected>, w: World, events: seq<Event>, v: World, e: Event, u: World)
      returns (longer: seq<Event>)
    requires |all| == |w.phases| && v == Run(all, w, events) && Step(all, v, e) == u
    ensures longer == events + [e] && Run(all, w, longer) == u
  {
    longer := events + [e];
    RunSnoc(all, w, events, e);
  }

  /** Publishing again what is published succeeds, and changes nothing. */
  lemma Republishing(all: seq<Expected>, w: World, i: nat) returns (more: seq<Event>)
    requires |all| == |w.phases| && i < |all| && w.phases[i] == ReadTag
    requires Published(all[i], w.remote) && w.remote.release.value.assets.Keys == all[i].assets.Keys
    ensures Undisturbed(more, i) && Run(all, w, more) == w.(phases := w.phases[i := Done(w.remote.release.value)])
  {
    var s, e := w.remote.release.value, Request(i, Choice(None, true, true));
    var u, v := w.(phases := w.phases[i := ReadRelease]), w.(phases := w.phases[i := Check(s, 0)]);
    more := Then(all, w, [], w, e, u);
    assert u.phases[i := Check(s, 0)] == v.phases;
    more := Then(all, w, more, u, e, v);
    var rest := Checking(all, v, i, s, 0);
    RunAppend(all, w, more, rest);
    more := more + rest;
    assert v.phases[i := Done(s)] == w.phases[i := Done(s)];
  }

  /** The release with every wanted asset but `n`, complete. */
  function Lacking(e: Expected, n: Name): Release {
    Release(e.meta, map x | x in e.assets && x != n :: Stored(e.assets[x], true))
  }

  function Whole(e: Expected): Release {
    Release(e.meta, map x | x in e.assets :: Stored(e.assets[x], true))
  }

  /** A publisher of `e` by itself, in front of a release that lacks `n`. */
  predicate Alone(all: seq<Expected>, w: World, e: Expected, n: Name) {
    all == [e] && n in e.assets && |w.phases| == 1 && w.remote == Remote(Some(e.sha), Some(Lacking(e, n)))
  }

  /** It downloads what is there, and finds `n` absent. */
  lemma FindsAbsent(all: seq<Expected>, w: World, e: Expected, n: Name, attempt: nat) returns (more: seq<Event>)
    requires Alone(all, w, e, n) && w.phases == [Check(Lacking(e, n), attempt)]
    ensures Undisturbed(more, 0) && Run(all, w, more) == w.(phases := [Upload(attempt, {n})])
  {
    var s, c := Lacking(e, n), Request(0, Choice(None, true, true));
    assert CompleteNames(s) == s.assets.Keys == e.assets.Keys - {n};
    assert n in e.assets.Keys && e.assets.Keys - s.assets.Keys == {n};
    var u := w.(phases := [Download(s, attempt, CompleteNames(s))]);
    more := Then(all, w, [], w, c, u);
    var rest := Downloads(all, u, 0, s, attempt, CompleteNames(s));
    RunAppend(all, w, more, rest);
    more := Then(all, w, more + rest, u.(phases := [Download(s, attempt, {})]), c,
        w.(phases := [Upload(attempt, {n})]));
  }

  /** It uploads `n`, which the server takes or refuses. */
  lemma UploadsLast(all: seq<Expected>, w: World, e: Expected, n: Name, attempt: nat, taken: bool)
    returns (more: seq<Event>, u: World)
    requires Alone(all, w, e, n) && w.phases == [Upload(attempt, {n})]
    ensures Undisturbed(more, 0) && u == Run(all, w, more)
    ensures u == World(if taken then Remote(Some(e.sha), Some(Whole(e))) else w.remote, [Reread(attempt)])
  {
    var put, c := Request(0, Choice(Some(n), taken, true)), Request(0, Choice(None, true, true));
    assert taken ==> Lacking(e, n).assets[n := Stored(e.assets[n], true)] == Whole(e).assets;
    assert {n} - {n} == {};
    var next := World(if taken then Remote(Some(e.sha), Some(Whole(e))) else w.remote, [Upload(attempt, {})]);
    assert Step(all, w, put) == next;
    more := Then(all, w, [], w, put, next);
    u := next.(phases := [Reread(attempt)]);
    more := Then(all, w, more, next, c, u);
  }

  /** The server refuses up to the last attempt, and takes that one. */
  lemma {:induction false} RefusedAttempts(all: seq<Expected>, w: World, e: Expected, n: Name, attempt: nat)
    returns (more: seq<Event>, u: World)
    requires Alone(all, w, e, n) && w.phases == [Check(Lacking(e, n), attempt)] && attempt < ATTEMPTS
    ensures Undisturbed(more, 0) && u == Run(all, w, more)
    ensures u == World(Remote(Some(e.sha), Some(Whole(e))), [Reread(ATTEMPTS - 1)])
    decreases ATTEMPTS - attempt
  {
    more := FindsAbsent(all, w, e, n, attempt);
    var uploading := w.(phases := [Upload(attempt, {n})]);
    var puts;
    puts, u := UploadsLast(all, uploading, e, n, attempt, attempt == ATTEMPTS - 1);
    RunAppend(all, w, more, puts);
    more := more + puts;
    if attempt < ATTEMPTS - 1 {
      var next := w.(phases := [Check(Lacking(e, n), attempt + 1)]);
      more := Then(all, w, more, u, Request(0, Choice(None, true, true)), next);
      var rest;
      rest, u := RefusedAttempts(all, next, e, n, attempt + 1);
      RunAppend(all, w, more, rest);
      more := more + rest;
    }
  }

  /**
   For every directory that passes the local check there is a run of an undisturbed publisher whose
   fifth upload completes the release exactly, and which cannot succeed any more.
   */
  lemma LastUploadComesTooLate(entries: map<Name, Digest>, files: map<Name, Digest>)
    returns (all: seq<Expected>, w: World, events: seq<Event>)
    requires ManifestAssets(entries, files).Some?
    ensures |all| == |w.phases| == 1 && Initial(w) && ManifestAssets(entries, files) == Some(all[0].assets)
    ensures Undisturbed(events, 0)
    ensures var v := Run(all, w, events);
            && v.phases[0] == Reread(ATTEMPTS - 1) && v.remote.release.Some? && Exact(all[0], v.remote.release.value)
            && !CanSucceed(all, v, 0)
  {
    var e := Expected(1, 2, files);
    all := [e];
    var s, c := Lacking(e, SUMS), Request(0, Choice(None, true, true));
    w := World(Remote(Some(1), Some(s)), [ReadTag]);
    var v1, v2 := w.(phases := [ReadRelease]), w.(phases := [Check(s, 0)]);
    events := Then(all, w, [], w, c, v1);
    events := Then(all, w, events, v1, c, v2);
    var rest, v := RefusedAttempts(all, v2, e, SUMS, 0);
    RunAppend(all, w, events, rest);
    events := events + rest;
    RereadSucceedsIff(all, v, 0, ATTEMPTS - 1);
  }

  lemma Suffixes()
    ensures Wheel("a.whl") && SourceDistribution("a.tar.gz") && !Wheel("a.tar.gz") && !SourceDistribution("a.whl")
    ensures "a.whl" != "a.tar.gz" && "a.whl" != SUMS && "a.tar.gz" != SUMS
  {
    var wheel, source := "a.whl", "a.tar.gz";
    assert wheel[1..] == ".whl" && source[1..] == ".tar.gz";
    assert source[4..][3] == 'z';
    assert |wheel| == 5 && |source| == 8 && |SUMS| == 10;
  }

  lemma ThreeFilesAreAccepted(wheel: Name, source: Name, a: Digest, b: Digest, c: Digest)
    requires Wheel(wheel) && SourceDistribution(source) && !Wheel(source) && !SourceDistribution(wheel)
    requires wheel != SUMS && source != SUMS
    ensures var entries := map[wheel := a, source := b];
            ManifestAssets(entries, entries[SUMS := c]) == Some(entries[SUMS := c])
  {
    var entries := map[wheel := a, source := b];
    var files := entries[SUMS := c];
    assert entries.Keys == {wheel, source};
    assert (set n | n in entries && Wheel(n)) == {wheel};
    assert (set n | n in entries && SourceDistribution(n)) == {source};
    assert files.Keys == {wheel, source, SUMS} && |files| == |files.Keys| == 3;
    assert files.Keys - {SUMS} == {wheel, source};
  }

  /** There is such a directory. */
  lemma OneAcceptedDirectory()
    ensures ManifestAssets(map["a.whl" := 7, "a.tar.gz" := 8], map["a.whl" := 7, "a.tar.gz" := 8][SUMS := 9]).Some?
  {
    Suffixes();
    ThreeFilesAreAccepted("a.whl", "a.tar.gz", 7, 8, 9);
  }

  /** Without the rule of three files they need not agree: the second publisher may want one asset more. */
  lemma MoreAssetsDisagree() returns (all: seq<Expected>, w: World, events: seq<Event>)
    ensures |all| == |w.phases| == 2 && Initial(w)
    ensures var v := Run(all, w, events); v.phases[0].Done? && v.phases[1].Done?
    ensures all[0].assets != all[1].assets
  {
    all := [Expected(1, 2, map["a" := 7]), Expected(1, 2, map["a" := 7, "b" := 8])];
    var first := Release(2, map["a" := Stored(7, true)]);
    var second := Release(2, map["a" := Stored(7, true), "b" := Stored(8, true)]);
    w := World(Remote(Some(1), Some(first)), [ReadTag, ReadTag]);
    events := Republishing(all, w, 0);
    var v := World(w.remote, [Done(first), ReadTag]);
    assert w.phases[0 := Done(first)] == v.phases;
    var u := v.(remote := Remote(Some(1), Some(second)));
    events := Then(all, w, events, v, Elsewhere(u.remote), u);
    var rest := Republishing(all, u, 1);
    RunAppend(all, w, events, rest);
    events := events + rest;
    assert "b" in all[1].assets && "b" !in all[0].assets;
  }
}
