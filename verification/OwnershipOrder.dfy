/**
 In which order the five kinds come and go, whatever else happens: what uses another resource is
 created after it and deleted before it.
 */
module OwnershipOrder {
  import opened Bytes
  import opened Ownership
  import opened OwnershipProofs

  /** What is left of a list of kinds. */
  predicate Rest(todo: seq<Kind>, all: seq<Kind>) {
    |todo| <= |all| && todo == all[|all| - |todo|..]
  }

  /** Whatever is not to be done any more is recorded. */
  ghost predicate Made(m: Manifest, todo: seq<Kind>) {
    forall k: Kind | k !in todo :: k in m.ids
  }

  ghost predicate InOrder(s: Control) {
    match s
    case Save(_, next) => InOrder(next)
    case Announce(m, todo) => Rest(todo, CREATION) && Made(m, todo)
    case Create(m, todo) => Rest(todo, CREATION) && Made(m, todo)
    case Await(m, todo) => Rest(todo, CREATION) && Made(m, todo)
    case Remove(_, todo) => Rest(todo, REMOVAL)
    case Delete(_, todo) => Rest(todo, REMOVAL)
    case Vanish(_, todo) => Rest(todo, REMOVAL)
    case _ => true
  }

  lemma RestGoesOn(todo: seq<Kind>, all: seq<Kind>)
    requires Rest(todo, all) && todo != []
    ensures Rest(todo[1..], all)
  {
  }

  lemma MadeGrows(m: Manifest, todo: seq<Kind>, k: Kind, id: Id)
    requires todo != [] && Made(m, todo) && k == todo[0]
    ensures Made(m.(ids := m.ids[k := id]), todo[1..])
  {
    assert todo == [todo[0]] + todo[1..];
  }

  lemma AllMade(k: Kind)
    ensures k in CREATION
  {
    assert CREATION[0] == Keypair && CREATION[1] == Group && CREATION[2] == Port && CREATION[3] == Volume &&
           CREATION[4] == Server;
  }

  lemma AwaitKeepsOrder(w: World)
    requires w.control.Await? && InOrder(w.control)
    ensures InOrder(AwaitStep(w).control)
  {
    var m, todo := w.control.m, w.control.todo;
    if todo != [] && todo[0] in w.cloud.born {
      RestGoesOn(todo, CREATION);
      MadeGrows(m, todo, todo[0], w.cloud.born[todo[0]]);
    }
  }

  lemma RemoveKeepsOrder(w: World)
    requires w.control.Remove? && InOrder(w.control)
    ensures InOrder(RemoveStep(w).control)
  {
    if w.control.todo != [] {
      RestGoesOn(w.control.todo, REMOVAL);
    }
    hide Found, Refused, MustWait, Rest;
  }

  lemma VanishKeepsOrder(w: World)
    requires w.control.Vanish? && InOrder(w.control)
    ensures InOrder(VanishStep(w).control)
  {
    if w.control.todo != [] {
      RestGoesOn(w.control.todo, REMOVAL);
    }
    hide Found, Rest;
  }

  lemma GoKeepsOrder(w: World)
    requires InOrder(w.control)
    ensures InOrder(GoStep(w).control)
  {
    hide Rest, Candidates, Imposter, RemoveStep, VanishStep, AwaitStep;
    match w.control
    case Await(_, _) => AwaitKeepsOrder(w);
    case Remove(_, _) => RemoveKeepsOrder(w);
    case Vanish(_, _) => VanishKeepsOrder(w);
    case Discover(_, todo) => if todo == [] { AllRest(); }
    case _ =>
  }

  lemma AllRest()
    ensures Rest(REMOVAL, REMOVAL) && Rest(CREATION, CREATION)
  {
  }

  lemma StepKeepsOrder(w: World, e: Event)
    requires Inv(w) && InOrder(w.control)
    ensures InOrder(Step(w, e).control)
  {
    match e
    case Go => GoKeepsOrder(w);
    case Prove =>
      forall k: Kind ensures k in CREATION {
        AllMade(k);
      }
    case _ =>
  }

  lemma {:induction false} RunKeepsOrder(w: World, events: seq<Event>)
    requires Initial(w)
    ensures InOrder(Run(w, events).control)
    decreases events
  {
    if events != [] {
      var before := events[..|events| - 1];
      RunKeepsOrder(w, before);
      RunKeeps(w, before);
      StepKeepsOrder(Run(w, before), events[|events| - 1]);
    }
  }

  // ----- The theorems

  /** The recorded resource of the kind is not there. */
  predicate Absent(m: Manifest, k: Kind, c: Cloud) {
    k in m.ids ==> m.ids[k] !in c.live
  }

  lemma RestOfRemoval(todo: seq<Kind>)
    requires Rest(todo, REMOVAL) && todo != []
    ensures todo[0] == Volume ==> Server !in todo
    ensures todo[0] == Port ==> Server !in todo && Volume !in todo
    ensures todo[0] == Group ==> Server !in todo && Volume !in todo && Port !in todo
    ensures todo[0] == Keypair ==> todo == [Keypair]
  {
  }

  /**
   Over every run, at every delete and at every lookup and wait around it: a volume or a port comes
   when the recorded server is gone, the group when nothing can be bound to it, the keypair last.
   */
  lemma DeletesInOrder(w: World, events: seq<Event>)
    requires Initial(w)
    ensures var v := Run(w, events);
            (v.control.Remove? || v.control.Delete? || v.control.Vanish?) && v.control.todo != [] ==>
              var m, k := v.control.m, v.control.todo[0];
              && (k == Volume ==> Absent(m, Server, v.cloud))
              && (k == Port ==> Absent(m, Server, v.cloud))
              && (k == Group ==> Absent(m, Server, v.cloud) && Absent(m, Port, v.cloud))
              && (k == Keypair ==> forall l | l != Keypair :: Absent(m, l, v.cloud))
  {
    RunKeeps(w, events);
    RunKeepsOrder(w, events);
    var v := Run(w, events);
    hide Run, History, Covers, Disks, Deletes;
    if (v.control.Remove? || v.control.Delete? || v.control.Vanish?) && v.control.todo != [] {
      RestOfRemoval(v.control.todo);
    }
  }

  lemma RestOfCreation(todo: seq<Kind>)
    requires Rest(todo, CREATION) && todo != []
    ensures todo[0] == Port ==> Group !in todo
    ensures todo[0] == Server ==> todo == [Server]
  {
  }

  /** Over every run a port is created when the group is recorded, and the server when all the others are. */
  lemma CreatesInOrder(w: World, events: seq<Event>)
    requires Initial(w)
    ensures var v := Run(w, events);
            v.control.Create? && v.control.todo != [] ==>
              var m, k := v.control.m, v.control.todo[0];
              && (k == Port ==> Group in m.ids)
              && (k == Server ==> Keypair in m.ids && Group in m.ids && Port in m.ids && Volume in m.ids)
  {
    RunKeepsOrder(w, events);
    var v := Run(w, events);
    hide Run;
    if v.control.Create? && v.control.todo != [] {
      RestOfCreation(v.control.todo);
    }
  }

  // ----- Where a cleanup stops

  /** A resource with the operation's name that is not marked, or that is not the recorded one. */
  ghost predicate Stranger(m: Manifest, k: Kind, c: Cloud, id: Id) {
    && id in c.live && c.live[id].kind == k && c.live[id].named
    && (!c.live[id].owned || (k in m.ids && id != m.ids[k]))
  }

  /** A cleanup stops in front of a stranger, and at a deletion that failed; an ongoing deletion is waited for. */
  lemma CleanupStops(v: World, id: Id)
    requires v.control.Discover? || v.control.Vanish?
    requires v.control.todo != []
    ensures v.control.Discover? && Stranger(v.control.m, v.control.todo[0], v.cloud, id) ==>
              Step(v, Go) == v.(control := Idle)
    ensures v.control.Vanish? && v.control.todo[0] in v.control.m.ids && id == v.control.m.ids[v.control.todo[0]] &&
            id in v.cloud.live && v.cloud.live[id].kind == v.control.todo[0] ==>
              Step(v, Go) == if v.cloud.live[id].broken then v.(control := Idle) else v
  {
    var k := v.control.todo[0];
    if v.control.Discover? && Stranger(v.control.m, k, v.cloud, id) {
      assert id in Candidates(v.cloud, k);
    }
  }
}
