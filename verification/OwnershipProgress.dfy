/** From wherever earlier runs were interrupted, a cleanup that nobody disturbs gets its certificate. */
module OwnershipProgress {
  import opened Bytes
  import opened Ownership
  import opened OwnershipProofs
  import opened OwnershipOrder

  /** Nothing else has the operation's name, and its own resources still show that they are its own. */
  ghost predicate Recognizable(c: Cloud) {
    forall id | id in c.live ::
      (c.live[id].named ==> c.live[id].owned) &&
          (Mine(c, id) ==> c.live[id].named && c.live[id].owned && c.live[id].located)
  }

  /** Every create has an outcome, and one that is still in flight left a resource. */
  ghost predicate Resolved(m: Manifest, c: Cloud) {
    c.pending == {} && (m.inflight.Some? && m.inflight.value !in m.ids ==>
        m.inflight.value in c.born && c.born[m.inflight.value] in c.live)
  }

  ghost predicate Discovered(m: Manifest, todo: seq<Kind>, c: Cloud) {
    forall k | k in c.born && c.born[k] in c.live && k !in todo :: k in m.ids
  }

  // ----- Runs that nobody disturbs

  /** The cloud gives up what holds a resource. */
  function Released(r: Resource): Resource {
    r.(busy := false, users := {})
  }

  /** A step of a cleanup run, or the release of a resource of which no user is left. */
  predicate Calm(v: World, e: Event) {
    match e
    case Clean => true
    case Go => true
    case DeleteNow => true
    case Touch(id, r) =>
      id in v.cloud.live && r == Released(v.cloud.live[id]) && v.cloud.live[id].users !! v.cloud.live.Keys
    case _ => false
  }

  predicate Undisturbed(w: World, events: seq<Event>)
    decreases events
  {
    if events == [] then true
    else
      var before := events[..|events| - 1];
      Undisturbed(w, before) && Calm(Run(w, before), events[|events| - 1])
  }

  /** The operation's resources are in use by each other only: server before volume and port, port before group. */
  ghost predicate Chained(c: Cloud) {
    && (Volume in c.born && c.born[Volume] in c.live ==> c.live[c.born[Volume]].users <= Own(c, Server))
    && (Port in c.born && c.born[Port] in c.live ==> c.live[c.born[Port]].users <= Own(c, Server))
    && (Group in c.born && c.born[Group] in c.live ==> c.live[c.born[Group]].users <= Own(c, Port))
    && (forall k | k in {Server, Keypair} && k in c.born && c.born[k] in c.live :: c.live[c.born[k]].users == {})
  }

  function Own(c: Cloud, k: Kind): set<Id> {
    if k in c.born then {c.born[k]} else {}
  }

  /** One more event, and where it leads. */
  lemma Then(w: World, events: seq<Event>, v: World, e: Event) returns (longer: seq<Event>, u: World)
    requires v == Run(w, events) && Inv(v)
    ensures u == Run(w, longer) && Inv(u) && u == Step(v, e)
    ensures Undisturbed(w, longer) <==> Undisturbed(w, events) && Calm(v, e)
  {
    longer, u := events + [e], Step(v, e);
    assert longer[..|events|] == events;
    StepKeeps(v, e);
  }

  lemma Goes(w: World, events: seq<Event>, v: World, next: World) returns (longer: seq<Event>, u: World)
    requires v == Run(w, events) && Inv(v) && next == GoStep(v)
    ensures u == Run(w, longer) && Inv(u) && u == next
    ensures Undisturbed(w, events) ==> Undisturbed(w, longer)
  {
    longer, u := Then(w, events, v, Go);
  }

  lemma Saves(w: World, events: seq<Event>, v: World) returns (longer: seq<Event>, u: World)
    requires v == Run(w, events) && Inv(v) && v.control.Save?
    ensures u == Run(w, longer) && Inv(u) && u.cloud == v.cloud
    ensures u.control == v.control.next && u.disk.manifest == Some(v.control.m)
    ensures Undisturbed(w, events) ==> Undisturbed(w, longer)
  {
    longer, u := events, v;
    if v.control.m.inflight.Some? && !v.disk.intent {
      longer, u := Then(w, longer, u, Go);
    }
    longer, u := Then(w, longer, u, Go);
  }

  /** The only candidate of a kind is the resource that its create made. */
  lemma OnlyMine(c: Cloud, k: Kind)
    requires History(c) && Recognizable(c)
    ensures !Imposter(c, k)
    ensures Candidates(c, k) == if k in c.born && c.born[k] in c.live then {c.born[k]} else {}
  {
    forall id | id in Candidates(c, k) ensures k in c.born && c.born[k] == id {
      CandidateIsMine(c, k, id);
    }
    if k in c.born && c.born[k] in c.live {
      assert Mine(c, c.born[k]);
      assert c.born[k] in Candidates(c, k);
    }
  }

  /** The manifest once the resource of kind `k` is looked for. */
  function Recording(m: Manifest, k: Kind, c: Cloud): Manifest {
    if k !in m.ids && k in c.born && c.born[k] in c.live then m.(ids := m.ids[k := c.born[k]]) else m
  }

  lemma DiscoverMove(v: World, k: Kind, rest: seq<Kind>)
    requires History(v.cloud) && Recognizable(v.cloud) && v.control.Discover? && Covers(v.control.m, v.cloud)
    requires v.control.todo != [] && v.control.todo[0] == k && v.control.todo[1..] == rest
    ensures var m := Recording(v.control.m, k, v.cloud);
            DiscoverStep(v) == v.(control := if m == v.control.m then Discover(m, rest) else Save(m, Discover(m, rest)))
  {
    OnlyMine(v.cloud, k);
  }

  lemma RecordingKeeps(m: Manifest, todo: seq<Kind>, c: Cloud)
    requires todo != [] && Resolved(m, c) && Discovered(m, todo, c)
    ensures Resolved(Recording(m, todo[0], c), c) && Discovered(Recording(m, todo[0], c), todo[1..], c)
  {
    assert todo == [todo[0]] + todo[1..];
  }

  lemma DiscoversOne(w: World, events: seq<Event>, v: World) returns (longer: seq<Event>, u: World)
    requires v == Run(w, events) && Inv(v) && v.control.Discover? && v.control.todo != []
    requires Recognizable(v.cloud)
    ensures u == Run(w, longer) && Inv(u) && u.cloud == v.cloud
    ensures u.control == Discover(Recording(v.control.m, v.control.todo[0], v.cloud), v.control.todo[1..])
    ensures Undisturbed(w, events) ==> Undisturbed(w, longer)
  {
    DiscoverMove(v, v.control.todo[0], v.control.todo[1..]);
    longer, u := Goes(w, events, v, DiscoverStep(v));
    if u.control.Save? {
      longer, u := Saves(w, longer, u);
    }
  }

  lemma {:induction false} Discovers(w: World, events: seq<Event>, v: World) returns (longer: seq<Event>, u: World)
    requires v == Run(w, events) && Inv(v) && v.control.Discover?
    requires Recognizable(v.cloud) && Resolved(v.control.m, v.cloud) && Discovered(v.control.m, v.control.todo, v.cloud)
    ensures u == Run(w, longer) && Inv(u) && u.cloud == v.cloud && u.control.Discover? && u.control.todo == []
    ensures Resolved(u.control.m, u.cloud) && Discovered(u.control.m, [], u.cloud)
    ensures Undisturbed(w, events) ==> Undisturbed(w, longer)
    decreases |v.control.todo|
  {
    longer, u := events, v;
    if v.control.todo != [] {
      RecordingKeeps(v.control.m, v.control.todo, v.cloud);
      longer, u := DiscoversOne(w, events, v);
      longer, u := Discovers(w, longer, u);
    }
  }

  lemma LookupMatches(v: World, id: Id)
    requires v.control.Remove? && v.control.todo != [] && v.control.todo[0] in v.control.m.ids
    requires id == v.control.m.ids[v.control.todo[0]] && Found(v.cloud, v.control.todo[0], id)
    requires var r := v.cloud.live[id]; r.named && r.owned && r.located && !r.busy && r.users == {}
    ensures RemoveStep(v) == v.(control := Delete(v.control.m, v.control.todo))
  {
  }

  lemma DeleteWorks(v: World, id: Id)
    requires v.control.Delete? && v.control.todo != [] && v.control.todo[0] in v.control.m.ids
    requires id == v.control.m.ids[v.control.todo[0]] && Found(v.cloud, v.control.todo[0], id)
    ensures var u := DeleteStep(v, true);
            u.cloud == v.cloud.(live := v.cloud.live - {id}) && u.control == Vanish(v.control.m, v.control.todo)
  {
  }

  /** The resource is released, looked up and deleted. */
  lemma RemovesLive(w: World, events: seq<Event>, v: World, id: Id) returns (longer: seq<Event>, u: World)
    requires v == Run(w, events) && Inv(v) && v.control.Remove? && v.control.todo != [] && Recognizable(v.cloud)
    requires v.control.todo[0] in v.control.m.ids && id == v.control.m.ids[v.control.todo[0]] && id in v.cloud.live
    ensures u == Run(w, longer) && Inv(u) && u.control == Vanish(v.control.m, v.control.todo)
    ensures u.cloud == v.cloud.(live := v.cloud.live - {id})
    ensures Undisturbed(w, events) && v.cloud.live[id].users !! v.cloud.live.Keys ==> Undisturbed(w, longer)
  {
    hide RemoveStep, DeleteStep, Undisturbed;
    assert id == v.cloud.born[v.control.todo[0]] && Mine(v.cloud, id);
    var r := Released(v.cloud.live[id]);
    longer, u := Then(w, events, v, Touch(id, r));
    assert u == v.(cloud := v.cloud.(live := v.cloud.live[id := r]));
    LookupMatches(u, id);
    longer, u := Goes(w, longer, u, u.(control := Delete(v.control.m, v.control.todo)));
    DeleteWorks(u, id);
    longer, u := Then(w, longer, u, DeleteNow);
    assert v.cloud.live[id := r] - {id} == v.cloud.live - {id};
  }

  /** A cleanup run among resources that are only in use by each other. */
  ghost predicate Orderly(v: World) {
    Chained(v.cloud) && v.control.Remove? && Rest(v.control.todo, REMOVAL) && v.control.m.inflight.None?
  }

  /** Whatever has its turn is used by nothing that is still there. */
  lemma NoUserIsLeft(v: World)
    requires Inv(v) && Orderly(v) && v.control.todo != []
    requires v.control.todo[0] in v.control.m.ids && v.control.m.ids[v.control.todo[0]] in v.cloud.live
    ensures v.cloud.live[v.control.m.ids[v.control.todo[0]]].users !! v.cloud.live.Keys
  {
    RestOfRemoval(v.control.todo);
  }

  lemma OrderlyGoesOn(v: World, u: World)
    requires v.control.Remove? && v.control.todo != [] && u.control == Remove(v.control.m, v.control.todo[1..])
    requires u.cloud.born == v.cloud.born
    requires forall id | id in u.cloud.live :: id in v.cloud.live && u.cloud.live[id] == v.cloud.live[id]
    ensures Orderly(v) ==> Orderly(u)
  {
    if Orderly(v) {
      RestGoesOn(v.control.todo, REMOVAL);
    }
  }

  /** A recorded resource is removed, if it is still there. */
  lemma RemovesRecorded(w: World, events: seq<Event>, v: World) returns (longer: seq<Event>, u: World)
    requires v == Run(w, events) && Inv(v) && v.control.Remove? && v.control.todo != [] && Recognizable(v.cloud)
    requires v.control.todo[0] in v.control.m.ids
    ensures u == Run(w, longer) && Inv(u) && u.control == Vanish(v.control.m, v.control.todo)
    ensures var id := v.control.m.ids[v.control.todo[0]]; u.cloud == v.cloud.(live := v.cloud.live - {id})
    ensures Undisturbed(w, events) && Orderly(v) ==> Undisturbed(w, longer)
  {
    hide Undisturbed, Orderly;
    var id := v.control.m.ids[v.control.todo[0]];
    if id in v.cloud.live {
      if Orderly(v) {
        NoUserIsLeft(v);
      }
      longer, u := RemovesLive(w, events, v, id);
    } else {
      longer, u := Then(w, events, v, Go);
      assert v.cloud.live - {id} == v.cloud.live;
    }
  }

  lemma Removes(w: World, events: seq<Event>, v: World) returns (longer: seq<Event>, u: World)
    requires v == Run(w, events) && Inv(v) && v.control.Remove? && v.control.todo != [] && Recognizable(v.cloud)
    ensures u == Run(w, longer) && Inv(u) && u.control == Remove(v.control.m, v.control.todo[1..])
    ensures Recognizable(u.cloud) && u.cloud.pending == v.cloud.pending && u.cloud.born == v.cloud.born
    ensures forall id | id in u.cloud.live :: id in v.cloud.live && u.cloud.live[id] == v.cloud.live[id]
    ensures Undisturbed(w, events) && Orderly(v) ==> Undisturbed(w, longer) && Orderly(u)
  {
    hide Undisturbed, Orderly;
    var m, k := v.control.m, v.control.todo[0];
    longer, u := events, v;
    if k in m.ids {
      longer, u := RemovesRecorded(w, events, v);
    }
    assert GoStep(u).cloud == u.cloud && GoStep(u).control == Remove(m, v.control.todo[1..]);
    longer, u := Then(w, longer, u, Go);
    OrderlyGoesOn(v, u);
  }

  lemma {:induction false} RemovesAll(w: World, events: seq<Event>, v: World) returns (longer: seq<Event>, u: World)
    requires v == Run(w, events) && Inv(v) && v.control.Remove? && Recognizable(v.cloud)
    ensures u == Run(w, longer) && Inv(u) && u.control == Remove(v.control.m, [])
    ensures Recognizable(u.cloud) && u.cloud.pending == v.cloud.pending && u.cloud.born == v.cloud.born
    ensures forall id | id in u.cloud.live :: id in v.cloud.live
    ensures Undisturbed(w, events) && Orderly(v) ==> Undisturbed(w, longer)
    decreases |v.control.todo|
  {
    longer, u := events, v;
    if v.control.todo != [] {
      longer, u := Removes(w, events, v);
      longer, u := RemovesAll(w, longer, u);
    }
  }

  lemma {:induction false} Sweeps(w: World, events: seq<Event>, v: World) returns (longer: seq<Event>, u: World)
    requires v == Run(w, events) && Inv(v) && v.control.Sweep? && Recognizable(v.cloud) && Clear(v.cloud)
    ensures u == Run(w, longer) && Inv(u) && u == v.(control := Sweep(v.control.m, []))
    ensures Undisturbed(w, events) ==> Undisturbed(w, longer)
    decreases |v.control.todo|
  {
    longer, u := events, v;
    if v.control.todo != [] {
      OnlyMine(v.cloud, v.control.todo[0]);
      longer, u := Then(w, events, v, Go);
      longer, u := Sweeps(w, longer, u);
    }
  }

  lemma Loads(w: World, events: seq<Event>, v: World) returns (longer: seq<Event>, u: World)
    requires v == Run(w, events) && Inv(v) && v.control == Idle && v.disk.manifest.Some?
    ensures u == Run(w, longer) && Inv(u) && u.cloud == v.cloud
    ensures u.control == Discover(v.disk.manifest.value.(verified := false), REMOVAL)
    ensures Undisturbed(w, events) ==> Undisturbed(w, longer)
  {
    longer, u := Then(w, events, v, Clean);
    if u.control.Save? {
      longer, u := Saves(w, longer, u);
    }
  }

  lemma Settles(w: World, events: seq<Event>, v: World) returns (longer: seq<Event>, u: World)
    requires v == Run(w, events) && Inv(v) && v.control.Discover? && v.control.todo == []
    requires Resolved(v.control.m, v.cloud) && Discovered(v.control.m, [], v.cloud)
    ensures u == Run(w, longer) && Inv(u) && u.cloud == v.cloud && u.control.Remove? && u.control.m.inflight.None?
    ensures u.control.todo == REMOVAL
    ensures Undisturbed(w, events) ==> Undisturbed(w, longer)
  {
    longer, u := Then(w, events, v, Go);
    if u.control.Save? {
      longer, u := Saves(w, longer, u);
    }
  }

  lemma Certifies(w: World, events: seq<Event>, v: World) returns (longer: seq<Event>, u: World)
    requires v == Run(w, events) && Inv(v) && Recognizable(v.cloud) && v.cloud.pending == {}
    requires v.control.Remove? && v.control.todo == [] && v.control.m.inflight.None?
    ensures u == Run(w, longer) && Inv(u) && u.cloud == v.cloud
    ensures u.control == Idle && u.disk.manifest == Some(v.control.m.(verified := true))
    ensures Undisturbed(w, events) ==> Undisturbed(w, longer)
  {
    longer, u := Then(w, events, v, Go);
    assert Clear(u.cloud);
    longer, u := Sweeps(w, longer, u);
    longer, u := Then(w, longer, u, Go);
    longer, u := Saves(w, longer, u);
  }

  /**
   Whatever was interrupted before: as long as the manifest is there, no create is unresolved and
   the operation's resources can be told from others', a cleanup run can end with a certificate.
   If the operation's resources are in use by each other only, as the proof left them, nobody
   has to help: `more` holds steps of that run, and each release is of a resource whose users
   have been deleted before.
   */
  lemma CleanupCanFinish(w: World, events: seq<Event>, v: World) returns (more: seq<Event>, u: World)
    requires Initial(w) && v == Run(w, events) && v.control == Idle && v.disk.manifest.Some?
    requires Recognizable(v.cloud) && Resolved(v.disk.manifest.value, v.cloud)
    ensures u == Run(v, more) && u.control == Idle && u.disk.manifest.Some? && u.disk.manifest.value.verified
    ensures u.cloud.born == v.cloud.born && forall id | id in u.cloud.live :: !Mine(u.cloud, id)
    ensures Chained(v.cloud) ==> Undisturbed(v, more)
  {
    RunKeeps(w, events);
    forall k: Kind ensures k in REMOVAL {
      AllKinds(k);
    }
    more, u := Loads(v, [], v);
    more, u := Discovers(v, more, u);
    more, u := Settles(v, more, u);
    more, u := RemovesAll(v, more, u);
    more, u := Certifies(v, more, u);
  }

  // ----- A proof that nobody disturbs

  lemma Announces(w: World, events: seq<Event>, v: World) returns (longer: seq<Event>, u: World)
    requires v == Run(w, events) && Inv(v) && v.control.Announce? && v.control.todo != []
    ensures u == Run(w, longer) && Inv(u) && u.cloud == v.cloud
    ensures u.control == Create(v.control.m.(inflight := Some(v.control.todo[0])), v.control.todo)
  {
    longer, u := Then(w, events, v, Go);
    longer, u := Saves(w, longer, u);
  }

  lemma Calls(w: World, events: seq<Event>, v: World) returns (longer: seq<Event>, u: World)
    requires v == Run(w, events) && Inv(v) && v.control.Create? && v.control.todo != []
    ensures u == Run(w, longer) && Inv(u) && u.control == Await(v.control.m, v.control.todo)
    ensures u.cloud.born == v.cloud.born && u.cloud.live == v.cloud.live && v.control.todo[0] in u.cloud.pending
  {
    longer, u := Then(w, events, v, Go);
  }

  lemma Records(w: World, events: seq<Event>, v: World) returns (longer: seq<Event>, u: World)
    requires v == Run(w, events) && Inv(v) && v.control.Await? && v.control.todo != []
    requires v.control.todo[0] in v.cloud.born
    ensures u == Run(w, longer) && Inv(u) && u.cloud == v.cloud && u.control.Announce?
    ensures u.control.todo == v.control.todo[1..] && u.disk.manifest == Some(u.control.m)
    ensures u.control.m.ids.Keys == v.control.m.ids.Keys + {v.control.todo[0]}
  {
    longer, u := Then(w, events, v, Go);
    longer, u := Saves(w, longer, u);
  }

  /** The create of the first kind that is left is announced, called, taken and recorded. */
  lemma CreatesOne(w: World, events: seq<Event>, v: World) returns (longer: seq<Event>, u: World)
    requires v == Run(w, events) && Inv(v) && v.control.Announce? && v.control.todo != []
    ensures u == Run(w, longer) && Inv(u) && u.control.Announce? && u.control.todo == v.control.todo[1..]
    ensures u.control.m.ids.Keys == v.control.m.ids.Keys + {v.control.todo[0]} && u.disk.manifest == Some(u.control.m)
    ensures Born(v.cloud) ==> Born(u.cloud)
  {
    hide Inv, Step;
    longer, u := Announces(w, events, v);
    longer, u := Calls(w, longer, u);
    longer, u := TakesEffect(w, longer, u);
    longer, u := Records(w, longer, u);
  }

  lemma TakesEffect(w: World, events: seq<Event>, v: World) returns (longer: seq<Event>, u: World)
    requires v == Run(w, events) && Inv(v) && v.control.Await? && v.control.todo != []
    requires v.control.todo[0] in v.cloud.pending
    ensures u == Run(w, longer) && Inv(u) && u.control == v.control && u.cloud.issued == v.cloud.issued
    ensures u.cloud.born.Keys == v.cloud.born.Keys + {v.control.todo[0]}
    ensures Born(v.cloud) ==> Born(u.cloud)
  {
    var k := v.control.todo[0];
    var id := SomeIdIsFree(v.cloud.live.Keys + v.cloud.born.Values);
    assert id !in v.cloud.live && !Mine(v.cloud, id);
    longer, u := Then(w, events, v, Appear(k, id));
  }

  /** Everything that was created is still there. */
  ghost predicate Born(c: Cloud) {
    forall k | k in c.born :: c.born[k] in c.live
  }

  lemma {:induction false} CreatesAll(w: World, events: seq<Event>, v: World) returns (longer: seq<Event>, u: World)
    requires v == Run(w, events) && Inv(v) && v.control.Announce? && v.disk.manifest == Some(v.control.m)
    ensures u == Run(w, longer) && Inv(u) && u.control.Announce? && u.control.todo == []
    ensures u.disk.manifest == Some(u.control.m)
    ensures forall k | k in v.control.m.ids || k in v.control.todo :: k in u.control.m.ids
    ensures Born(v.cloud) ==> Born(u.cloud)
    decreases |v.control.todo|
  {
    hide Inv, Step;
    longer, u := events, v;
    var todo := v.control.todo;
    if todo != [] {
      assert todo == [todo[0]] + todo[1..];
      longer, u := CreatesOne(w, events, v);
      longer, u := CreatesAll(w, longer, u);
    }
  }

  /**
   From every initial world a proof can create all five resources, each one recorded on disk
   under the id that the cloud gave it, and end.
   */
  lemma ProofCanCreate(w: World) returns (events: seq<Event>, u: World)
    requires Initial(w)
    ensures u == Run(w, events) && u.control == Idle && u.disk.manifest.Some?
    ensures forall k: Kind :: k in u.disk.manifest.value.ids && k in u.cloud.born
    ensures forall k: Kind :: u.disk.manifest.value.ids[k] == u.cloud.born[k] && u.cloud.born[k] in u.cloud.live
  {
    RunKeeps(w, []);
    events, u := Then(w, [], w, Prove);
    events, u := Saves(w, events, u);
    events, u := CreatesAll(w, events, u);
    forall k: Kind ensures k in u.control.m.ids {
      AllMade(k);
    }
    events, u := Goes(w, events, u, u.(control := Idle));
  }

  // ----- Creates that block for ever

  /** The outcome of the create of kind `k` is unknown, and nothing of it is or will be there. */
  ghost predicate Vanished(m: Manifest, k: Kind, c: Cloud) {
    m.inflight == Some(k) && k !in m.ids && k !in c.pending && (k in c.born ==> c.born[k] !in c.live)
  }

  ghost predicate Stuck(m: Manifest, k: Kind) {
    m.inflight == Some(k) && k !in m.ids && !m.verified
  }

  ghost predicate StuckControl(s: Control, k: Kind) {
    match s
    case Idle => true
    case Save(m, next) => Stuck(m, k) && StuckControl(next, k)
    case Announce(_, _) => false
    case Create(_, _) => false
    case Await(_, _) => false
    case _ => Stuck(s.m, k)
  }

  ghost predicate Blocked(w: World, k: Kind) {
    && w.disk.intent && (w.disk.manifest.Some? ==> Stuck(w.disk.manifest.value, k)) && StuckControl(w.control, k)
    && k !in w.cloud.pending && (k in w.cloud.born ==> w.cloud.born[k] !in w.cloud.live)
  }

  lemma BlockedDiscovers(w: World, k: Kind)
    requires Blocked(w, k) && History(w.cloud) && w.control.Discover?
    ensures Blocked(DiscoverStep(w), k)
  {
    if w.control.todo != [] {
      var found := Candidates(w.cloud, w.control.todo[0]);
      if !Imposter(w.cloud, w.control.todo[0]) && AtMostOne(found) && found != {} {
        CandidateIsMine(w.cloud, w.control.todo[0], Only(found));
      }
    }
  }

  lemma BlockedGoes(w: World, k: Kind)
    requires Blocked(w, k) && History(w.cloud)
    ensures Blocked(GoStep(w), k)
  {
    if w.control.Discover? {
      BlockedDiscovers(w, k);
    }
  }

  lemma BlockedStays(w: World, k: Kind, e: Event)
    requires Blocked(w, k) && History(w.cloud)
    ensures Blocked(Step(w, e), k)
  {
    if e.Go? {
      BlockedGoes(w, k);
    } else if k in w.cloud.born {
      assert Mine(w.cloud, w.cloud.born[k]);
    }
  }

  lemma {:induction false} BlockedForEver(v: World, k: Kind, more: seq<Event>)
    requires Inv(v) && Blocked(v, k)
    ensures Inv(Run(v, more)) && Blocked(Run(v, more), k)
    decreases more
  {
    if more != [] {
      var before := more[..|more| - 1];
      BlockedForEver(v, k, before);
      BlockedStays(Run(v, before), k, more[|more| - 1]);
      StepKeeps(Run(v, before), more[|more| - 1]);
    }
  }

  /**
   A create that is in flight without a resource that is or can still be there blocks for ever:
   no run of cleanups, whatever else happens, gets a certificate.
   */
  lemma UnresolvedBlocksForEver(w: World, events: seq<Event>, v: World, k: Kind, more: seq<Event>)
    requires Initial(w) && v == Run(w, events) && v.control == Idle
    requires v.disk.manifest.Some? && Vanished(v.disk.manifest.value, k, v.cloud)
    ensures var u := Run(v, more); u.disk.manifest.Some? ==> !u.disk.manifest.value.verified
  {
    RunKeeps(w, events);
    BlockedForEver(v, k, more);
  }

  ghost predicate CanFinish(v: World) {
    exists more :: Run(v, more).disk.manifest.Some? && Run(v, more).disk.manifest.value.verified
  }

  // ----- What others can do to help

  /** This resource stands in nobody's way. */
  ghost predicate Tidy(c: Cloud, id: Id) {
    id in c.live ==>
      if Mine(c, id) then c.live[id].named && c.live[id].owned && c.live[id].located else !c.live[id].named
  }

  /** The program, its files and its creates are as they were, and so are its resources that are there. */
  ghost predicate Untouched(v: World, u: World) {
    && u.control == v.control && u.disk == v.disk && u.cloud.born == v.cloud.born && u.cloud.pending == v.cloud.pending
    && forall k | k in v.cloud.born :: v.cloud.born[k] in u.cloud.live <==> v.cloud.born[k] in v.cloud.live
  }

  lemma TidiesOne(w: World, events: seq<Event>, v: World, id: Id) returns (longer: seq<Event>, u: World)
    requires v == Run(w, events) && Inv(v) && id in v.cloud.live
    ensures u == Run(w, longer) && Inv(u) && Untouched(v, u) && Tidy(u.cloud, id) &&
            u.cloud.live.Keys <= v.cloud.live.Keys
    ensures forall other | other != id && Tidy(v.cloud, other) :: Tidy(u.cloud, other)
  {
    if Mine(v.cloud, id) {
      var r := v.cloud.live[id].(named := true, owned := true, located := true);
      longer, u := Then(w, events, v, Touch(id, r));
    } else {
      longer, u := Then(w, events, v, Disappear(id));
      assert forall k | k in v.cloud.born :: Mine(v.cloud, v.cloud.born[k]);
    }
  }

  /** Others take away what is in the way and put the operation's resources in order. */
  lemma {:induction false} Tidies(w: World, events: seq<Event>, v: World, todo: set<Id>)
      returns (longer: seq<Event>, u: World)
    requires v == Run(w, events) && Inv(v) && forall id | id in v.cloud.live && id !in todo :: Tidy(v.cloud, id)
    ensures u == Run(w, longer) && Inv(u) && Untouched(v, u) && forall id | id in u.cloud.live :: Tidy(u.cloud, id)
    decreases |todo|
  {
    longer, u := events, v;
    if todo != {} {
      var id :| id in todo;
      if id in v.cloud.live {
        longer, u := TidiesOne(w, events, v, id);
      }
      var next := u;
      longer, u := Tidies(w, longer, next, todo - {id});
    }
  }

  lemma {:induction false} SomeIdIsFree(ids: set<Id>) returns (id: Id)
    ensures forall x | x in ids :: x < id
    decreases |ids|
  {
    id := 0;
    if ids != {} {
      var x :| x in ids;
      var below := SomeIdIsFree(ids - {x});
      id := if below <= x then x + 1 else below;
      forall y | y in ids ensures y < id {
        assert y == x || y in ids - {x};
      }
    }
  }

  /** A create that is still pending takes effect. */
  lemma Takes(w: World, events: seq<Event>, v: World) returns (longer: seq<Event>, u: World)
    requires v == Run(w, events) && Inv(v) && v.control == Idle && v.disk.manifest.Some?
    ensures u == Run(w, longer) && Inv(u) && u.control == Idle && u.disk == v.disk && u.cloud.pending == {}
    ensures forall k | !Vanished(v.disk.manifest.value, k, v.cloud) :: !Vanished(u.disk.manifest.value, k, u.cloud)
  {
    longer, u := events, v;
    var m := v.disk.manifest.value;
    if v.cloud.pending != {} {
      var k :| k in v.cloud.pending;
      assert m.inflight == Some(k) && v.cloud.pending == {k};
      var id := SomeIdIsFree(v.cloud.live.Keys + v.cloud.born.Values);
      longer, u := Then(w, events, v, Appear(k, id));
      assert id !in v.cloud.live && !Mine(v.cloud, id) && MayAppear(v.cloud, k, id);
      assert u.cloud.born[k] == id && id in u.cloud.live && u.cloud.pending == {};
      assert !Vanished(m, k, u.cloud);
    }
  }

  /**
   The exact condition, whatever state an interrupted operation has left behind: with the help of
   others a certificate is within reach if and only if there is no create in flight that has no
   recorded id and of which nothing is or can still be there.
   */
  lemma FinishableIff(w: World, events: seq<Event>, v: World)
    requires Initial(w) && v == Run(w, events) && v.control == Idle && v.disk.manifest.Some?
    ensures CanFinish(v) <==> !exists k :: Vanished(v.disk.manifest.value, k, v.cloud)
  {
    if k :| Vanished(v.disk.manifest.value, k, v.cloud) {
      forall more ensures Run(v, more).disk.manifest.Some? ==> !Run(v, more).disk.manifest.value.verified {
        UnresolvedBlocksForEver(w, events, v, k, more);
      }
    } else {
      HelpedToFinish(w, events, v);
    }
  }

  lemma HelpedToFinish(w: World, events: seq<Event>, v: World)
    requires Initial(w) && v == Run(w, events) && v.control == Idle && v.disk.manifest.Some?
    requires forall k :: !Vanished(v.disk.manifest.value, k, v.cloud)
    ensures CanFinish(v)
  {
    RunKeeps(w, events);
    var first, a := Takes(v, [], v);
    var second, b := Tidies(v, first, a, a.cloud.live.Keys);
    assert Recognizable(b.cloud) by {
      assert forall id | id in b.cloud.live :: Tidy(b.cloud, id);
    }
    assert Resolved(b.disk.manifest.value, b.cloud) by {
      var m := b.disk.manifest.value;
      if m.inflight.Some? {
        assert !Vanished(m, m.inflight.value, a.cloud);
      }
    }
    RunAppend(w, events, second);
    var more, u := CleanupCanFinish(w, events + second, b);
    RunAppend(v, second, more);
    assert Run(v, second + more) == u;
  }

  lemma {:induction false} RunAppend(w: World, a: seq<Event>, b: seq<Event>)
    ensures Run(w, a + b) == Run(Run(w, a), b)
    decreases |b|
  {
    if b == [] {
      assert a + b == a;
    } else {
      assert (a + b)[..|a + b| - 1] == a + b[..|b| - 1];
      RunAppend(w, a, b[..|b| - 1]);
    }
  }

  /**
   Such a state is reached by a crash between an announcement and its create, which is then never
   called: nothing was created, and yet no cleanup will certify.
   */
  lemma AnnouncedCreateBlocks(w: World) returns (events: seq<Event>, v: World)
    requires Initial(w) && Recognizable(w.cloud)
    ensures v == Run(w, events) && v.control == Idle && v.cloud == w.cloud && v.disk.manifest.Some?
    ensures Vanished(v.disk.manifest.value, Keypair, v.cloud) && !CanFinish(v)
  {
    RunKeeps(w, []);
    var announced := FRESH.(inflight := Some(Keypair));
    events, v := Then(w, [], w, Prove);
    events, v := Then(w, events, v, Go);
    assert v.control == Announce(FRESH, CREATION);
    events, v := Then(w, events, v, Go);
    assert v.control == Save(announced, Create(announced, CREATION));
    events, v := Then(w, events, v, Go);
    events, v := Then(w, events, v, Go);
    assert v.disk == Disk(Some(announced), true);
    events, v := Then(w, events, v, Crash);
    assert Vanished(v.disk.manifest.value, Keypair, v.cloud);
    FinishableIff(w, events, v);
  }
}
