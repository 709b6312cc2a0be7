/** What every run of the programs in Ownership keeps, crashes and other users included. */
module OwnershipProofs {
  import opened Bytes
  import opened Ownership

  // ----- The invariant

  /** One resource for each create, under one id; the ownership marks do not lie. */
  ghost predicate History(c: Cloud) {
    && c.pending <= c.issued && c.born.Keys <= c.issued && c.pending !! c.born.Keys
    && (forall k | k in c.born && c.born[k] in c.live :: c.live[c.born[k]].kind == k)
    && (forall k, l | k in c.born && l in c.born :: c.born[k] == c.born[l] ==> k == l)
    && (forall id | id in c.live && c.live[id].owned :: Mine(c, id))
  }

  /** A manifest accounts for every create: it has the id, or says that the create is in flight. */
  ghost predicate Covers(m: Manifest, c: Cloud) {
    && (forall k | k in m.ids :: k in c.born && m.ids[k] == c.born[k])
    && (forall k | k in c.pending :: m.inflight == Some(k))
    && (forall k | k in c.born :: k in m.ids || m.inflight == Some(k))
  }

  /** Nothing of the operation's is left, and nothing of it can still come. */
  ghost predicate Clear(c: Cloud) {
    c.pending == {} && forall k | k in c.born :: c.born[k] !in c.live
  }

  predicate Proving(s: Control) {
    match s
    case Save(_, next) => Proving(next)
    case Announce(_, _) => true
    case Create(_, _) => true
    case Await(_, _) => true
    case _ => false
  }

  /** The recorded resources of all kinds but `todo` are gone. */
  ghost predicate Gone(m: Manifest, todo: seq<Kind>, c: Cloud) {
    forall k | k in m.ids && k !in todo :: m.ids[k] !in c.live
  }

  ghost predicate Distinct(todo: seq<Kind>) {
    forall i, j | 0 <= i < j < |todo| :: todo[i] != todo[j]
  }

  ghost predicate Unissued(todo: seq<Kind>, c: Cloud) {
    forall k | k in todo :: k !in c.issued
  }

  /** What a program knows where it stands; `s` may still be waiting for its file write. */
  ghost predicate Knows(s: Control, c: Cloud) {
    match s
    case Idle => true
    case Save(m, next) => Knows(next, c) && Covers(m, c)
    case Announce(m, todo) => Covers(m, c) && m.inflight.None? && !m.verified && Distinct(todo) && Unissued(todo, c)
    case Create(m, todo) =>
      Covers(m, c) && todo != [] && m.inflight == Some(todo[0]) && !m.verified && Distinct(todo) && Unissued(todo, c)
    case Await(m, todo) =>
      Covers(m, c) && todo != [] && m.inflight == Some(todo[0]) && !m.verified && Distinct(todo) &&
          Unissued(todo[1..], c)
    case Discover(m, _) => Covers(m, c) && !m.verified
    case Remove(m, todo) => Covers(m, c) && !m.verified && Gone(m, todo, c)
    case Delete(m, todo) => Covers(m, c) && !m.verified && Gone(m, todo, c) && todo != [] && todo[0] in m.ids
    case Vanish(m, todo) => Covers(m, c) && !m.verified && Gone(m, todo, c) && todo != [] && todo[0] in m.ids
    case Sweep(m, _) => Covers(m, c) && !m.verified && Gone(m, [], c)
  }

  /** A certificate is only written when it is true, and no write changes what the program goes on with. */
  ghost predicate Writes(w: World) {
    w.control.Save? ==>
      var m, next := w.control.m, w.control.next;
      && (m.verified ==> Clear(w.cloud) && next == Idle && m.inflight.None?)
      && !next.Save? && !next.Delete? && !next.Sweep? && (!next.Idle? ==> next.m == m)
  }

  /** Between its writes a program holds in memory what is on disk, unless the manifest was lost. */
  ghost predicate Mirrored(w: World) {
    !w.control.Idle? && !w.control.Save? && w.disk.manifest.Some? ==> w.disk.manifest.value == w.control.m
  }

  ghost predicate Disks(w: World) {
    && (w.cloud.issued != {} ==> w.disk.intent)
    && (w.control.Create? ==> w.disk.intent)
    && (w.disk.manifest.Some? ==> Covers(w.disk.manifest.value, w.cloud))
    && (w.disk.manifest.Some? && w.disk.manifest.value.inflight.Some? ==> w.disk.intent)
    && (w.disk.manifest.Some? && w.disk.manifest.value.verified ==>
          Clear(w.cloud) && !Proving(w.control) && w.disk.manifest.value.inflight.None?)
  }

  ghost predicate Deletes(w: World) {
    forall id | id in w.deleted :: Mine(w.cloud, id)
  }

  ghost predicate Inv(w: World) {
    History(w.cloud) && Knows(w.control, w.cloud) && Writes(w) && Mirrored(w) && Disks(w) && Deletes(w)
  }

  // ----- Every step keeps it

  lemma SaveKeeps(w: World)
    requires Inv(w) && w.control.Save?
    ensures Inv(SaveStep(w))
  {
  }

  lemma ProveKeeps(w: World)
    requires Inv(w) && w.control.Idle?
    ensures Inv(ProveStep(w))
  {
    if w.disk.manifest.None? && !w.disk.intent {
      assert w.cloud.issued == {};
    }
  }

  lemma AnnounceKeeps(w: World)
    requires Inv(w) && w.control.Announce?
    ensures Inv(AnnounceStep(w))
  {
    if w.control.todo != [] {
      assert w.control.todo[0] in w.control.todo;
    }
  }

  lemma CreateKeeps(w: World)
    requires Inv(w) && w.control.Create?
    ensures Inv(CreateStep(w))
  {
    var todo := w.control.todo;
    assert todo[0] in todo;
    forall k | k in todo[1..] ensures k in todo && k != todo[0] {
      var i :| 0 <= i < |todo[1..]| && todo[1..][i] == k;
      assert todo[i + 1] == k;
    }
  }

  lemma AwaitKeeps(w: World)
    requires Inv(w) && w.control.Await?
    ensures Inv(AwaitStep(w))
  {
    var todo := w.control.todo;
    assert Distinct(todo[1..]);
  }

  lemma CleanKeeps(w: World)
    requires Inv(w) && w.control.Idle?
    ensures Inv(CleanStep(w))
  {
  }

  lemma AllKinds(k: Kind)
    ensures k in REMOVAL
  {
    assert REMOVAL[0] == Server && REMOVAL[1] == Volume && REMOVAL[2] == Port && REMOVAL[3] == Group &&
           REMOVAL[4] == Keypair;
  }

  /** A candidate that is no imposter is the resource that the operation's create made. */
  lemma CandidateIsMine(c: Cloud, k: Kind, id: Id)
    requires History(c) && id in Candidates(c, k) && !Imposter(c, k)
    ensures k in c.born && c.born[k] == id
  {
    assert c.live[id].owned;
    var l :| l in c.born && c.born[l] == id;
    assert c.live[c.born[l]].kind == l;
  }

  lemma DiscoverKeeps(w: World)
    requires Inv(w) && w.control.Discover?
    ensures Inv(DiscoverStep(w))
  {
    var m, todo := w.control.m, w.control.todo;
    if todo == [] {
      SettleKeeps(w);
    } else {
      var found := Candidates(w.cloud, todo[0]);
      if !Imposter(w.cloud, todo[0]) && AtMostOne(found) && found != {} {
        CandidateIsMine(w.cloud, todo[0], Only(found));
      }
    }
  }

  lemma SettleKeeps(w: World)
    requires Inv(w) && w.control.Discover?
    ensures Inv(w.(control := Settled(w.control.m)))
  {
    forall k: Kind ensures k in REMOVAL {
      AllKinds(k);
    }
  }

  lemma GoneGrows(m: Manifest, todo: seq<Kind>, c: Cloud)
    requires todo != [] && Gone(m, todo, c) && (todo[0] in m.ids ==> m.ids[todo[0]] !in c.live)
    ensures Gone(m, todo[1..], c)
  {
    assert todo == [todo[0]] + todo[1..];
  }

  /** A step that only moves the program on, with the same manifest in memory. */
  lemma MovingOnKeeps(w: World, v: World)
    requires Inv(w) && v == w.(control := v.control) && Knows(v.control, w.cloud)
    requires !w.control.Idle? && !w.control.Save?
    requires v.control.Idle? || ((v.control.Remove? || v.control.Delete? || v.control.Vanish? || v.control.Sweep?)
                                 && v.control.m == w.control.m)
    ensures Inv(v)
  {
    hide History, Knows, Covers, Clear;
  }

  lemma RemoveKeeps(w: World)
    requires Inv(w) && w.control.Remove?
    ensures Inv(RemoveStep(w))
  {
    hide History, Covers, Refused, MustWait, Found, Disks, Deletes;
    var m, todo := w.control.m, w.control.todo;
    if todo == [] {
      assert Gone(m, [], w.cloud);
      MovingOnKeeps(w, w.(control := Sweep(m, REMOVAL)));
    } else {
      if todo[0] !in m.ids {
        GoneGrows(m, todo, w.cloud);
      }
      MovingOnKeeps(w, RemoveStep(w));
    }
  }

  lemma DeleteKeeps(w: World, now: bool)
    requires Inv(w) && w.control.Delete?
    ensures Inv(DeleteStep(w, now))
  {
    var m, k := w.control.m, w.control.todo[0];
    assert k in w.cloud.born && m.ids[k] == w.cloud.born[k];
    assert Mine(w.cloud, m.ids[k]);
  }

  lemma VanishKeeps(w: World)
    requires Inv(w) && w.control.Vanish?
    ensures Inv(VanishStep(w))
  {
    var m, todo := w.control.m, w.control.todo;
    var k := todo[0];
    assert m.ids[k] == w.cloud.born[k];
    if !Found(w.cloud, k, m.ids[k]) {
      GoneGrows(m, todo, w.cloud);
    }
  }

  lemma CertifyKeeps(w: World)
    requires Inv(w) && w.control.Sweep? && w.control.m.inflight.None?
    ensures Inv(w.(control := Save(w.control.m.(verified := true), Idle)))
  {
    var m, c := w.control.m, w.cloud;
    assert Clear(c) by {
      assert forall k | k in c.pending :: m.inflight == Some(k);
    }
    assert Covers(m.(verified := true), c);
  }

  lemma SweepKeeps(w: World)
    requires Inv(w) && w.control.Sweep?
    ensures Inv(SweepStep(w))
  {
    hide History, Covers, Candidates, Disks, Deletes, Gone;
    if w.control.todo == [] && w.control.m.inflight.None? {
      CertifyKeeps(w);
    } else {
      MovingOnKeeps(w, SweepStep(w));
    }
  }

  lemma GoKeeps(w: World)
    requires Inv(w)
    ensures Inv(GoStep(w))
  {
    match w.control
    case Idle =>
    case Save(_, _) => SaveKeeps(w);
    case Announce(_, _) => AnnounceKeeps(w);
    case Create(_, _) => CreateKeeps(w);
    case Await(_, _) => AwaitKeeps(w);
    case Discover(_, _) => DiscoverKeeps(w);
    case Remove(_, _) => RemoveKeeps(w);
    case Delete(_, _) => DeleteKeeps(w, false);
    case Vanish(_, _) => VanishKeeps(w);
    case Sweep(_, _) => SweepKeeps(w);
  }

  /** The cloud after a pending create of kind `k` took effect under `id`. */
  ghost predicate Appears(c: Cloud, k: Kind, id: Id, d: Cloud) {
    && MayAppear(c, k, id) && d.issued == c.issued && d.pending == c.pending - {k} && d.born == c.born[k := id]
    && d.live == c.live[id := Resource(k, true, true, true, false, false, {})]
  }

  lemma HistoryAppears(c: Cloud, k: Kind, id: Id, d: Cloud)
    requires History(c) && Appears(c, k, id, d)
    ensures History(d) && forall i | Mine(c, i) :: Mine(d, i)
  {
    assert forall l | l in c.born :: Mine(c, c.born[l]) && l in d.born && d.born[l] == c.born[l];
    assert d.born[k] == id;
    forall i | Mine(c, i) ensures Mine(d, i) {
      var l :| l in c.born && c.born[l] == i;
      assert d.born[l] == i;
    }
  }

  lemma CoversAppears(m: Manifest, c: Cloud, k: Kind, id: Id, d: Cloud)
    requires History(c) && Covers(m, c) && Appears(c, k, id, d)
    ensures Covers(m, d)
  {
  }

  lemma GoneAppears(m: Manifest, todo: seq<Kind>, c: Cloud, k: Kind, id: Id, d: Cloud)
    requires Covers(m, c) && Gone(m, todo, c) && Appears(c, k, id, d)
    ensures Gone(m, todo, d)
  {
    assert forall l | l in m.ids :: Mine(c, c.born[l]);
  }

  lemma {:induction false} KnowsAppears(s: Control, c: Cloud, k: Kind, id: Id, d: Cloud)
    requires History(c) && Knows(s, c) && Appears(c, k, id, d)
    ensures Knows(s, d)
  {
    if !s.Idle? {
      CoversAppears(s.m, c, k, id, d);
    }
    match s
    case Save(_, next) => KnowsAppears(next, c, k, id, d);
    case Remove(m, todo) => GoneAppears(m, todo, c, k, id, d);
    case Delete(m, todo) => GoneAppears(m, todo, c, k, id, d);
    case Vanish(m, todo) => GoneAppears(m, todo, c, k, id, d);
    case Sweep(m, todo) => GoneAppears(m, [], c, k, id, d);
    case _ =>
  }

  lemma AppearKeeps(w: World, k: Kind, id: Id)
    requires Inv(w)
    ensures Inv(Others(w, Appear(k, id)))
  {
    if MayAppear(w.cloud, k, id) {
      var c, d := w.cloud, Others(w, Appear(k, id)).cloud;
      HistoryAppears(c, k, id, d);
      KnowsAppears(w.control, c, k, id, d);
      if w.disk.manifest.Some? {
        CoversAppears(w.disk.manifest.value, c, k, id, d);
      }
    }
  }

  /** Everything else keeps what was created, and adds nothing of the operation's. */
  lemma {:induction false} KnowsShrinks(s: Control, c: Cloud, d: Cloud)
    requires Knows(s, c) && d.issued == c.issued && d.pending <= c.pending && d.born == c.born
    requires forall k | k in c.born && c.born[k] in d.live :: c.born[k] in c.live
    ensures Knows(s, d)
  {
    if s.Save? {
      KnowsShrinks(s.next, c, d);
    }
  }

  lemma AbandonKeeps(w: World, k: Kind)
    requires Inv(w)
    ensures Inv(Others(w, Abandon(k)))
  {
    KnowsShrinks(w.control, w.cloud, Others(w, Abandon(k)).cloud);
  }

  lemma DisappearKeeps(w: World, id: Id)
    requires Inv(w)
    ensures Inv(Others(w, Disappear(id)))
  {
    KnowsShrinks(w.control, w.cloud, Others(w, Disappear(id)).cloud);
  }

  lemma TouchKeeps(w: World, id: Id, r: Resource)
    requires Inv(w)
    ensures Inv(Others(w, Touch(id, r)))
  {
    if MayTouch(w.cloud, id, r) {
      assert forall k | k in w.cloud.born :: Mine(w.cloud, w.cloud.born[k]);
      KnowsShrinks(w.control, w.cloud, Others(w, Touch(id, r)).cloud);
    }
  }

  lemma StepKeeps(w: World, e: Event)
    requires Inv(w)
    ensures Inv(Step(w, e))
  {
    match e
    case Prove => if w.control.Idle? { ProveKeeps(w); }
    case Clean => if w.control.Idle? { CleanKeeps(w); }
    case Go => GoKeeps(w);
    case DeleteNow => if w.control.Delete? { DeleteKeeps(w, true); }
    case Crash =>
    case Appear(k, id) => AppearKeeps(w, k, id);
    case Abandon(k) => AbandonKeeps(w, k);
    case Disappear(id) => DisappearKeeps(w, id);
    case Touch(id, r) => TouchKeeps(w, id, r);
    case LoseManifest =>
  }

  lemma {:induction false} RunKeeps(w: World, events: seq<Event>)
    requires Initial(w)
    ensures Inv(Run(w, events))
    decreases events
  {
    if events != [] {
      RunKeeps(w, events[..|events| - 1]);
      StepKeeps(Run(w, events[..|events| - 1]), events[|events| - 1]);
    }
  }

  // ----- What is on disk as long as nobody loses the manifest

  predicate NothingLost(events: seq<Event>) {
    forall e | e in events :: !e.LoseManifest?
  }

  /** A manifest is on disk from the first announcement on, and between all writes. */
  ghost predicate Present(w: World) {
    && (w.cloud.issued != {} ==> w.disk.manifest.Some?)
    && (!w.control.Idle? && !w.control.Save? ==> w.disk.manifest.Some?)
  }

  lemma PresentKeeps(w: World, e: Event)
    requires Present(w) && !e.LoseManifest?
    ensures Present(Step(w, e))
  {
  }

  lemma {:induction false} PresentRun(w: World, events: seq<Event>)
    requires Initial(w) && NothingLost(events)
    ensures Present(Run(w, events))
    decreases events
  {
    if events != [] {
      var before := events[..|events| - 1];
      PresentRun(w, before);
      PresentKeeps(Run(w, before), events[|events| - 1]);
    }
  }

  // ----- The sweep behind a certificate

  function At(w: World, events: seq<Event>, n: nat): World
    requires n <= |events|
  {
    Run(w, events[..n])
  }

  /** Nothing of the kind has the operation's name or, where a listing shows them, its marks. */
  ghost predicate Bare(c: Cloud, k: Kind) {
    forall id | id in c.live && c.live[id].kind == k :: !c.live[id].named && (k == Keypair || !c.live[id].owned)
  }

  lemma NoCandidates(c: Cloud, k: Kind)
    ensures Candidates(c, k) == {} <==> Bare(c, k)
  {
    if Candidates(c, k) == {} {
      forall id | id in c.live && c.live[id].kind == k ensures !c.live[id].named &&
          (k == Keypair || !c.live[id].owned) {
        assert id !in Candidates(c, k);
      }
    }
  }

  /** A sweep only passes a kind of which nothing is there. */
  lemma SweepSeesNothing(v: World)
    requires v.control.Sweep? && v.control.todo != [] && !SweepStep(v).control.Idle?
    ensures Bare(v.cloud, v.control.todo[0])
  {
    NoCandidates(v.cloud, v.control.todo[0]);
  }

  /** At point `n` the sweep looks at kind `k`, and nothing of it is there. */
  ghost predicate Reading(w: World, events: seq<Event>, n: nat, m: Manifest, k: Kind) {
    && n <= |events| && At(w, events, n).control.Sweep? && At(w, events, n).control.m == m
    && At(w, events, n).control.todo != [] && At(w, events, n).control.todo[0] == k
    && Bare(At(w, events, n).cloud, k)
  }

  /** At some point from `s` up to `e` the sweep sees nothing of the kind. */
  ghost predicate SeenBare(w: World, events: seq<Event>, s: nat, e: nat, m: Manifest, k: Kind) {
    exists n :: s <= n < e && Reading(w, events, n, m, k)
  }

  /** From `s` up to `e` one program sweeps without a break, and has seen all kinds but `todo` empty. */
  ghost predicate Swept(w: World, events: seq<Event>, s: nat, e: nat, m: Manifest, todo: seq<Kind>) {
    && s <= e <= |events|
    && (forall n | s <= n < e :: At(w, events, n).control.Sweep? && At(w, events, n).control.m == m)
    && (forall k: Kind | k !in todo :: SeenBare(w, events, s, e, m, k))
  }

  lemma SweptStays(w: World, events: seq<Event>, x: Event, s: nat, e: nat, m: Manifest, todo: seq<Kind>)
    requires Swept(w, events, s, e, m, todo)
    ensures Swept(w, events + [x], s, e, m, todo)
  {
    var longer := events + [x];
    forall n | 0 <= n <= |events| ensures At(w, longer, n) == At(w, events, n) {
      assert longer[..n] == events[..n];
    }
    forall k: Kind | k !in todo ensures SeenBare(w, longer, s, e, m, k) {
      assert SeenBare(w, events, s, e, m, k);
      var n :| s <= n < e && Reading(w, events, n, m, k);
      assert Reading(w, longer, n, m, k);
    }
  }

  /** The sweep goes on: the point reached is added, and `k` is read if it was looked at there. */
  lemma SweptGrows(w: World, events: seq<Event>, x: Event, s: nat, m: Manifest, todo: seq<Kind>, less: seq<Kind>)
    requires Swept(w, events, s, |events|, m, todo) && Run(w, events).control == Sweep(m, todo)
    requires less == todo || (todo != [] && less == todo[1..] && Bare(Run(w, events).cloud, todo[0]))
    ensures Swept(w, events + [x], s, |events| + 1, m, less)
  {
    hide Run, Bare;
    var longer, here := events + [x], |events|;
    SweptStays(w, events, x, s, here, m, todo);
    assert longer[..here] == events;
    if less != todo {
      assert todo == [todo[0]] + less;
      assert Reading(w, longer, here, m, todo[0]);
    }
    forall k: Kind | k !in less ensures SeenBare(w, longer, s, here + 1, m, k) {
      if k in todo {
        assert Reading(w, longer, here, m, k);
      } else {
        assert SeenBare(w, longer, s, here, m, k);
        var n :| s <= n < here && Reading(w, longer, n, m, k);
      }
    }
  }

  /** From `e` to `t` the program is about to write the certificate `m`. */
  ghost predicate Holding(w: World, events: seq<Event>, e: nat, t: nat, m: Manifest) {
    t <= |events| && forall n | e <= n <= t :: At(w, events, n).control == Save(m, Idle)
  }

  /** The sweep from `s` to `e` saw all five kinds empty, and ever since the certificate is about to be written. */
  ghost predicate Earning(w: World, events: seq<Event>, s: nat, e: nat, m: Manifest) {
    Swept(w, events, s, e, m.(verified := false), []) && Holding(w, events, e, |events|, m)
  }

  /** That sweep led straight to the write at `t`, and the certificate has been on disk ever since. */
  ghost predicate Certified(w: World, events: seq<Event>, s: nat, e: nat, t: nat, m: Manifest) {
    && Swept(w, events, s, e, m.(verified := false), []) && e <= t < |events| && Holding(w, events, e, t, m)
    && Standing(w, events, t, m)
  }

  ghost predicate Standing(w: World, events: seq<Event>, t: nat, m: Manifest) {
    forall n | t < n <= |events| :: At(w, events, n).disk.manifest == Some(m)
  }

  /** `longer` is the same run with one event more. */
  ghost predicate Extends(w: World, events: seq<Event>, longer: seq<Event>) {
    |longer| == |events| + 1 && forall n | 0 <= n <= |events| :: At(w, longer, n) == At(w, events, n)
  }

  lemma HoldingStays(w: World, events: seq<Event>, longer: seq<Event>, e: nat, t: nat, m: Manifest)
    requires Extends(w, events, longer) && Holding(w, events, e, t, m)
    ensures Holding(w, longer, e, t, m)
  {
  }

  lemma StandingStays(w: World, events: seq<Event>, longer: seq<Event>, t: nat, m: Manifest)
    requires Extends(w, events, longer) && (Standing(w, events, t, m) || t == |events|)
    requires At(w, longer, |longer|).disk.manifest == Some(m)
    ensures Standing(w, longer, t, m)
  {
  }

  lemma PointsStay(w: World, events: seq<Event>, x: Event)
    ensures Extends(w, events, events + [x]) && At(w, events + [x], |events| + 1) == Step(Run(w, events), x)
  {
    var longer := events + [x];
    forall n | 0 <= n <= |events| ensures At(w, longer, n) == At(w, events, n) {
      assert longer[..n] == events[..n];
    }
    assert longer[..|events| + 1] == longer && longer[..|longer| - 1] == events;
  }

  lemma EarningStays(w: World, events: seq<Event>, x: Event, s: nat, e: nat, m: Manifest)
    requires Earning(w, events, s, e, m) && At(w, events + [x], |events| + 1).control == Save(m, Idle)
    ensures Earning(w, events + [x], s, e, m)
  {
    SweptStays(w, events, x, s, e, m.(verified := false), []);
    PointsStay(w, events, x);
    HoldingStays(w, events, events + [x], e, |events|, m);
  }

  lemma CertifiedStays(w: World, events: seq<Event>, x: Event, s: nat, e: nat, t: nat, m: Manifest)
    requires Certified(w, events, s, e, t, m) && At(w, events + [x], |events| + 1).disk.manifest == Some(m)
    ensures Certified(w, events + [x], s, e, t, m)
  {
    SweptStays(w, events, x, s, e, m.(verified := false), []);
    PointsStay(w, events, x);
    HoldingStays(w, events, events + [x], e, t, m);
    StandingStays(w, events, events + [x], t, m);
  }

  lemma CertificateWritten(w: World, events: seq<Event>, x: Event, s: nat, e: nat, m: Manifest)
    requires Earning(w, events, s, e, m) && e <= |events| && At(w, events + [x], |events| + 1).disk.manifest == Some(m)
    ensures Certified(w, events + [x], s, e, |events|, m)
  {
    SweptStays(w, events, x, s, e, m.(verified := false), []);
    PointsStay(w, events, x);
    HoldingStays(w, events, events + [x], e, |events|, m);
    StandingStays(w, events, events + [x], |events|, m);
  }

  /** What the past of a sweep, of a certificate in memory and of one on disk was like. */
  ghost predicate Earned(w: World, events: seq<Event>) {
    var v := Run(w, events);
    && (v.control.Sweep? ==> exists s :: Swept(w, events, s, |events|, v.control.m, v.control.todo))
    && (v.control.Save? && v.control.m.verified ==> exists s, e :: Earning(w, events, s, e, v.control.m))
    && (v.disk.manifest.Some? && v.disk.manifest.value.verified ==>
          exists s, e, t :: Certified(w, events, s, e, t, v.disk.manifest.value))
  }

  /** A sweep begins behind the last removal. */
  lemma SweepBegins(w: World, events: seq<Event>, m: Manifest)
    ensures Swept(w, events, |events|, |events|, m, REMOVAL)
  {
    forall k: Kind ensures k in REMOVAL {
      AllKinds(k);
    }
  }

  lemma SweepEarned(w: World, events: seq<Event>, x: Event)
    requires Earned(w, events) && Writes(Run(w, events)) && Step(Run(w, events), x).control.Sweep?
    ensures var u, longer := Step(Run(w, events), x).control, events + [x];
            exists s :: Swept(w, longer, s, |longer|, u.m, u.todo)
  {
    var v := Run(w, events);
    var u := Step(v, x);
    if v.control.Sweep? {
      var s :| Swept(w, events, s, |events|, v.control.m, v.control.todo);
      if x == Go {
        SweepSeesNothing(v);
      }
      SweptGrows(w, events, x, s, v.control.m, v.control.todo, u.control.todo);
    } else {
      SweepBegins(w, events + [x], u.control.m);
    }
  }

  lemma SaveEarned(w: World, events: seq<Event>, x: Event)
    requires Earned(w, events) && Knows(Run(w, events).control, Run(w, events).cloud) && Writes(Run(w, events))
    requires var u := Step(Run(w, events), x).control; u.Save? && u.m.verified
    ensures exists s, e :: Earning(w, events + [x], s, e, Step(Run(w, events), x).control.m)
  {
    var v := Run(w, events);
    var u := Step(v, x);
    if v.control.Save? {
      var s, e :| Earning(w, events, s, e, v.control.m);
      assert At(w, events, |events|) == v by {
        assert events[..|events|] == events;
      }
      PointsStay(w, events, x);
      EarningStays(w, events, x, s, e, v.control.m);
    } else {
      assert v.control.Sweep? && v.control.todo == [] && u.control == Save(v.control.m.(verified := true), Idle);
      var s :| Swept(w, events, s, |events|, v.control.m, []);
      SweptGrows(w, events, x, s, v.control.m, [], []);
      PointsStay(w, events, x);
      assert u.control.m.(verified := false) == v.control.m;
      assert Earning(w, events + [x], s, |events| + 1, u.control.m);
    }
  }

  lemma DiskEarned(w: World, events: seq<Event>, x: Event)
    requires Earned(w, events)
    requires var d := Step(Run(w, events), x).disk.manifest; d.Some? && d.value.verified
    ensures exists s, e, t :: Certified(w, events + [x], s, e, t, Step(Run(w, events), x).disk.manifest.value)
  {
    var v := Run(w, events);
    var m := Step(v, x).disk.manifest.value;
    PointsStay(w, events, x);
    if v.disk.manifest == Some(m) {
      var s, e, t :| Certified(w, events, s, e, t, m);
      CertifiedStays(w, events, x, s, e, t, m);
    } else {
      assert v.control.Save? && v.control.m == m;
      var s, e :| Earning(w, events, s, e, m);
      CertificateWritten(w, events, x, s, e, m);
    }
  }

  lemma {:induction false} RunEarned(w: World, events: seq<Event>)
    requires Initial(w)
    ensures Earned(w, events)
    decreases events
  {
    if events != [] {
      var before, x := events[..|events| - 1], events[|events| - 1];
      RunEarned(w, before);
      RunKeeps(w, before);
      assert before + [x] == events;
      var u := Step(Run(w, before), x);
      if u.control.Sweep? {
        SweepEarned(w, before, x);
      } else if u.control.Save? && u.control.m.verified {
        SaveEarned(w, before, x);
      }
      if u.disk.manifest.Some? && u.disk.manifest.value.verified {
        DiskEarned(w, before, x);
      }
    }
  }

  // ----- The theorems

  /**
   Write-ahead ownership.  After any run, crashes included, every resource that the operation
   created is recorded by its id or its kind is in flight in the durable manifest, and when both
   files are absent no create was ever called.
   */
  lemma WriteAhead(w: World, events: seq<Event>)
    requires Initial(w)
    ensures var v := Run(w, events);
            && (v.disk.manifest.Some? ==>
                  forall k | k in v.cloud.born || k in v.cloud.pending ::
                    var m := v.disk.manifest.value;
                    (k in v.cloud.born && k in m.ids && m.ids[k] == v.cloud.born[k]) || m.inflight == Some(k))
            && (NothingToClean(v) ==> v.cloud.issued == {} && v.cloud.born == map[] && v.cloud.pending == {})
  {
    RunKeeps(w, events);
    var v := Run(w, events);
    if NothingToClean(v) {
      assert v.cloud.born.Keys == {};
    }
  }

  /**
   Write-ahead ownership on disk.  As long as nobody loses the manifest, it is there from the
   first create on and accounts for every create, also for the one that is about to be called.
   */
  lemma WriteAheadOnDisk(w: World, events: seq<Event>)
    requires Initial(w) && NothingLost(events)
    ensures var v := Run(w, events);
            && (v.cloud.issued != {} ==> v.disk.manifest.Some?)
            && (forall k | k in v.cloud.born || k in v.cloud.pending ::
                  v.disk.manifest.Some?
                  && var m := v.disk.manifest.value;
                     (k in v.cloud.born && k in m.ids && m.ids[k] == v.cloud.born[k]) || m.inflight == Some(k))
            && (v.control.Create? ==> v.control.todo != [] && v.disk.manifest.Some?
                                      && v.disk.manifest.value.inflight == Some(v.control.todo[0]))
  {
    RunKeeps(w, events);
    PresentRun(w, events);
  }

  /**
   A certificate is true for as long as it stands: nothing that the operation created is left,
   nothing of it can still appear, no create is in flight and nothing bears its marks.
   */
  lemma CertificateIsTrue(w: World, events: seq<Event>)
    requires Initial(w)
    ensures var v := Run(w, events);
            v.disk.manifest.Some? && v.disk.manifest.value.verified ==>
              && v.cloud.pending == {} && (forall k | k in v.cloud.born :: v.cloud.born[k] !in v.cloud.live)
              && v.disk.manifest.value.inflight.None?
              && forall id | id in v.cloud.live :: !v.cloud.live[id].owned
  {
    RunKeeps(w, events);
  }

  /**
   Every certificate is earned by the cleanup that writes it.  One program sweeps without a break,
   sees each of the five kinds without anything that has the operation's name or marks, and goes
   straight from the end of that sweep to the write, with no other step, crash or cleanup between;
   and a certificate that stands on disk has stood there since such a write.
   */
  lemma CertificateIsEarned(w: World, events: seq<Event>)
    requires Initial(w)
    ensures var v := Run(w, events);
            && (v.control.Save? && v.control.m.verified ==>
                  exists s: nat, e: nat :: Earning(w, events, s, e, v.control.m))
            && (v.disk.manifest.Some? && v.disk.manifest.value.verified ==>
                  exists s: nat, e: nat, t: nat :: Certified(w, events, s, e, t, v.disk.manifest.value))
  {
    RunEarned(w, events);
  }

  /** Every delete is for a resource that the operation's own create made. */
  lemma DeletesAreOwn(w: World, events: seq<Event>)
    requires Initial(w)
    ensures var v := Run(w, events); forall id | id in v.deleted :: Mine(v.cloud, id)
  {
    RunKeeps(w, events);
  }

  /** A program that deletes has the id on disk, unless the manifest was lost. */
  lemma DeleteIsRecorded(w: World, events: seq<Event>)
    requires Initial(w) && Run(w, events).control.Delete?
    ensures var v := Run(w, events);
            && v.control.todo != [] && v.control.todo[0] in v.control.m.ids
            && var k := v.control.todo[0];
               && (v.disk.manifest.Some? ==>
                     k in v.disk.manifest.value.ids && v.disk.manifest.value.ids[k] == v.control.m.ids[k])
               && (NothingLost(events) ==> v.disk.manifest.Some?)
  {
    RunKeeps(w, events);
    if NothingLost(events) {
      PresentRun(w, events);
    }
  }

  /**
   A delete follows a lookup of the recorded id that reported the operation's name and marks, for
   a server its project, and no use by anything but the recorded server.
   */
  lemma DeleteFollowsMatchingLookup(w: World, events: seq<Event>, e: Event)
    requires Initial(w)
    requires var v := Run(w, events); !v.control.Delete? && Step(v, e).control.Delete?
    ensures var v := Run(w, events); e == Go && v.control.Remove? && Step(v, e).cloud == v.cloud
    ensures var v := Run(w, events);
            var m, k := v.control.m, v.control.todo[0];
            && Step(v, e).control == Delete(m, v.control.todo) && k in m.ids && Found(v.cloud, k, m.ids[k])
            && (v.disk.manifest.Some? ==> v.disk.manifest.value == m)
            && var r := v.cloud.live[m.ids[k]];
               && r.named && r.owned && (k == Server ==> r.located) && (k == Port ==> r.users <= Recorded(m, Server))
               && (k == Group ==> r.users == {}) && (k == Volume ==> !r.busy && r.users == {})
  {
    RunKeeps(w, events);
  }

  /** No step of either program changes what others have. */
  lemma ForeignIsUntouched(w: World, events: seq<Event>, e: Event, id: Id)
    requires Initial(w) && (e.Prove? || e.Clean? || e.Go? || e.DeleteNow? || e.Crash?)
    ensures var v := Run(w, events);
            !Mine(v.cloud, id) ==> (id in Step(v, e).cloud.live <==> id in v.cloud.live)
                                   && (id in v.cloud.live ==> Step(v, e).cloud.live[id] == v.cloud.live[id])
  {
    RunKeeps(w, events);
    var v := Run(w, events);
    if v.control.Delete? && e == DeleteNow {
      var m, k := v.control.m, v.control.todo[0];
      assert Mine(v.cloud, v.cloud.born[k]);
    }
  }
}
