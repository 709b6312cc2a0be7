/**
 The crash-safe ownership of scripts/run_native_kvm_openstack.py: one proof run and any number
 of cleanup runs over a cloud that others use too, with a crash allowed between any two steps.

 A step is one call to the cloud or one replacement of a file.  The programs never see `born`,
 `pending` and `issued`; they are what the theorems speak about.
 */
module Ownership {
  import opened Bytes

  datatype Kind = Keypair | Group | Port | Volume | Server

  type Id = nat

  /**
   What a lookup reports.  `named` and `owned` say whether the resource bears the operation's name
   and its ownership marks, `located` whether it reports the operation's project, `broken` that its
   deletion failed, and `users` what it is attached or bound to.
   */
  datatype Resource = Resource(kind: Kind, named: bool, owned: bool, located: bool, busy: bool, broken: bool,
      users: set<Id>)

  /**
   `issued` are the kinds whose create was called; each was called once, and its resource either
   is still `pending`, or was `born` under an id, or never comes.
   */
  datatype Cloud = Cloud(live: map<Id, Resource>, born: map<Kind, Id>, pending: set<Kind>, issued: set<Kind>)

  datatype Manifest = Manifest(ids: map<Kind, Id>, inflight: Option<Kind>, verified: bool)

  /** The two durable files. */
  datatype Disk = Disk(manifest: Option<Manifest>, intent: bool)

  /** Where the one running program stands, and what it holds in memory. */
  datatype Control =
    | Idle
    | Save(m: Manifest, next: Control)
    | Announce(m: Manifest, todo: seq<Kind>)
    | Create(m: Manifest, todo: seq<Kind>)
    | Await(m: Manifest, todo: seq<Kind>)
    | Discover(m: Manifest, todo: seq<Kind>)
    | Remove(m: Manifest, todo: seq<Kind>)
    | Delete(m: Manifest, todo: seq<Kind>)
    | Vanish(m: Manifest, todo: seq<Kind>)
    | Sweep(m: Manifest, todo: seq<Kind>)

  /** `deleted` lists every id for which a delete was called. */
  datatype World = World(cloud: Cloud, disk: Disk, control: Control, deleted: seq<Id>)

  const CREATION := [Keypair, Group, Port, Volume, Server]
  const REMOVAL := [Server, Volume, Port, Group, Keypair]
  const FRESH := Manifest(map[], None, false)

  datatype Event =
    | Prove
    | Clean
    | Go
    | DeleteNow
    | Crash
    | Appear(kind: Kind, id: Id)
    | Abandon(kind: Kind)
    | Disappear(id: Id)
    | Touch(id: Id, resource: Resource)
    | LoseManifest

  // ----- What the programs read

  predicate Found(c: Cloud, k: Kind, id: Id) {
    id in c.live && c.live[id].kind == k
  }

  /** A keypair is looked up by its name, the other kinds are listed. */
  predicate Candidate(r: Resource, k: Kind) {
    r.kind == k && (r.named || (r.owned && k != Keypair))
  }

  function Candidates(c: Cloud, k: Kind): set<Id> {
    set id | id in c.live && Candidate(c.live[id], k)
  }

  predicate AtMostOne(ids: set<Id>) {
    ids == {} || exists id | id in ids :: ids == {id}
  }

  function Only(ids: set<Id>): (id: Id)
    requires ids != {} && AtMostOne(ids)
    ensures ids == {id}
  {
    var id :| id in ids && ids == {id};
    id
  }

  /** A resource that has the operation's name, but is not the operation's. */
  predicate Imposter(c: Cloud, k: Kind) {
    exists id | id in c.live :: c.live[id].kind == k && c.live[id].named && !c.live[id].owned
  }

  function Recorded(m: Manifest, k: Kind): set<Id> {
    if k in m.ids then {m.ids[k]} else {}
  }

  /** The reasons for which a delete is refused. */
  predicate Refused(m: Manifest, k: Kind, r: Resource) {
    || !r.named || !r.owned
    || (k == Server && !r.located)
    || ((k == Volume || k == Port) && !(r.users <= Recorded(m, Server)))
    || (k == Group && r.users != {})
  }

  predicate MustWait(k: Kind, r: Resource) {
    k == Volume && (r.busy || r.users != {})
  }

  // ----- The programs

  /** A file write: the intent goes first, when a create is announced and no intent is there. */
  function SaveStep(w: World): World
    requires w.control.Save?
  {
    if w.control.m.inflight.Some? && !w.disk.intent then w.(disk := w.disk.(intent := true))
    else w.(disk := w.disk.(manifest := Some(w.control.m)), control := w.control.next)
  }

  function ProveStep(w: World): World {
    if w.disk.manifest.None? && !w.disk.intent then w.(control := Save(FRESH, Announce(FRESH, CREATION))) else w
  }

  function AnnounceStep(w: World): World
    requires w.control.Announce?
  {
    var m, todo := w.control.m, w.control.todo;
    if todo == [] then w.(control := Idle)
    else
      var announced := m.(inflight := Some(todo[0]));
      w.(control := Save(announced, Create(announced, todo)))
  }

  function CreateStep(w: World): World
    requires w.control.Create?
  {
    var m, todo := w.control.m, w.control.todo;
    if todo == [] then w
    else
      var c := w.cloud.(pending := w.cloud.pending + {todo[0]}, issued := w.cloud.issued + {todo[0]});
      w.(cloud := c, control := Await(m, todo))
  }

  /** The create returned an id. */
  function AwaitStep(w: World): World
    requires w.control.Await?
  {
    var m, todo := w.control.m, w.control.todo;
    if todo == [] || todo[0] !in w.cloud.born then w
    else
      var recorded := Manifest(m.ids[todo[0] := w.cloud.born[todo[0]]], None, m.verified);
      w.(control := Save(recorded, Announce(recorded, todo[1..])))
  }

  function CleanStep(w: World): World {
    if w.disk.manifest.None? then w
    else
      var m := w.disk.manifest.value;
      if m.verified then
        var cleared := m.(verified := false);
        w.(control := Save(cleared, Discover(cleared, REMOVAL)))
      else w.(control := Discover(m, REMOVAL))
  }

  /** A run without files has nothing to do; with an intent alone it must not say so. */
  predicate NothingToClean(w: World) {
    w.disk.manifest.None? && !w.disk.intent
  }

  function Settled(m: Manifest): Control {
    if m.inflight.Some? && m.inflight.value in m.ids then
      var settled := m.(inflight := None);
      Save(settled, Remove(settled, REMOVAL))
    else Remove(m, REMOVAL)
  }

  function DiscoverStep(w: World): World
    requires w.control.Discover?
  {
    var m, todo := w.control.m, w.control.todo;
    if todo == [] then w.(control := Settled(m))
    else
      var k, found := todo[0], Candidates(w.cloud, todo[0]);
      if Imposter(w.cloud, k) || !AtMostOne(found) || (k in m.ids && !(found <= {m.ids[k]})) then w.(control := Idle)
      else if found == {} || k in m.ids then w.(control := Discover(m, todo[1..]))
      else
        var recorded := m.(ids := m.ids[k := Only(found)]);
        w.(control := Save(recorded, Discover(recorded, todo[1..])))
  }

  function RemoveStep(w: World): World
    requires w.control.Remove?
  {
    var m, todo := w.control.m, w.control.todo;
    if todo == [] then w.(control := Sweep(m, REMOVAL))
    else if todo[0] !in m.ids then w.(control := Remove(m, todo[1..]))
    else
      var k, id := todo[0], m.ids[todo[0]];
      if !Found(w.cloud, k, id) then w.(control := Vanish(m, todo))
      else if Refused(m, k, w.cloud.live[id]) then w.(control := Idle)
      else if MustWait(k, w.cloud.live[id]) then w
      else w.(control := Delete(m, todo))
  }

  /** The call fails when the resource is gone already; otherwise it takes effect now or later. */
  function DeleteStep(w: World, now: bool): World
    requires w.control.Delete?
  {
    var m, todo := w.control.m, w.control.todo;
    if todo == [] || todo[0] !in m.ids then w
    else
      var id := m.ids[todo[0]];
      var called := w.(deleted := w.deleted + [id]);
      if !Found(w.cloud, todo[0], id) then called.(control := Idle)
      else
        var live := if now then w.cloud.live - {id} else w.cloud.live;
        called.(cloud := w.cloud.(live := live), control := Vanish(m, todo))
  }

  /** Polls until the resource is gone, or reports that its deletion failed. */
  function VanishStep(w: World): World
    requires w.control.Vanish?
  {
    var m, todo := w.control.m, w.control.todo;
    if todo == [] || todo[0] !in m.ids then w
    else if Found(w.cloud, todo[0], m.ids[todo[0]]) then
      if w.cloud.live[m.ids[todo[0]]].broken then w.(control := Idle) else w
    else w.(control := Remove(m, todo[1..]))
  }

  function SweepStep(w: World): World
    requires w.control.Sweep?
  {
    var m, todo := w.control.m, w.control.todo;
    if todo == [] then
      if m.inflight.Some? then w.(control := Idle) else w.(control := Save(m.(verified := true), Idle))
    else if Candidates(w.cloud, todo[0]) != {} then w.(control := Idle)
    else w.(control := Sweep(m, todo[1..]))
  }

  function GoStep(w: World): World {
    match w.control
    case Idle => w
    case Save(_, _) => SaveStep(w)
    case Announce(_, _) => AnnounceStep(w)
    case Create(_, _) => CreateStep(w)
    case Await(_, _) => AwaitStep(w)
    case Discover(_, _) => DiscoverStep(w)
    case Remove(_, _) => RemoveStep(w)
    case Delete(_, _) => DeleteStep(w, false)
    case Vanish(_, _) => VanishStep(w)
    case Sweep(_, _) => SweepStep(w)
  }

  // ----- Everybody else

  predicate Mine(c: Cloud, id: Id) {
    id in c.born.Values
  }

  /** A pending create takes effect under an id that nothing had. */
  predicate MayAppear(c: Cloud, k: Kind, id: Id) {
    k in c.pending && id !in c.live && !Mine(c, id)
  }

  /**
   Others may create and change anything, but they do not put the operation's ownership marks on
   a resource that is not the operation's, and an id is not used twice.
   */
  predicate MayTouch(c: Cloud, id: Id, r: Resource) {
    if Mine(c, id) then id in c.live && r.kind == c.live[id].kind else !r.owned
  }

  function Others(w: World, e: Event): World
    requires e.Appear? || e.Abandon? || e.Disappear? || e.Touch? || e.LoseManifest?
  {
    var c := w.cloud;
    match e
    case Appear(k, id) =>
      if MayAppear(c, k, id) then
        var r := Resource(k, true, true, true, false, false, {});
        w.(cloud := Cloud(c.live[id := r], c.born[k := id], c.pending - {k}, c.issued))
      else w
    case Abandon(k) => w.(cloud := c.(pending := c.pending - {k}))
    case Disappear(id) => w.(cloud := c.(live := c.live - {id}))
    case Touch(id, r) => if MayTouch(c, id, r) then w.(cloud := c.(live := c.live[id := r])) else w
    case LoseManifest => w.(disk := w.disk.(manifest := None))
  }

  function Step(w: World, e: Event): World {
    match e
    case Prove => if w.control.Idle? then ProveStep(w) else w
    case Clean => if w.control.Idle? then CleanStep(w) else w
    case Go => GoStep(w)
    case DeleteNow => if w.control.Delete? then DeleteStep(w, true) else w
    case Crash => w.(control := Idle)
    case _ => Others(w, e)
  }

  function Run(w: World, events: seq<Event>): World
    decreases events
  {
    if events == [] then w else Step(Run(w, events[..|events| - 1]), events[|events| - 1])
  }

  /** No file, nothing of the operation's, and any resources of others. */
  predicate Initial(w: World) {
    && w.disk == Disk(None, false) && w.control == Idle && w.deleted == []
    && w.cloud.born == map[] && w.cloud.pending == {} && w.cloud.issued == {}
    && forall id | id in w.cloud.live :: !w.cloud.live[id].owned
  }
}
