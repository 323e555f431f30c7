/** The scene of src/scene.ts: a dictionary of game objects and the frame
    that drives them.

    A frame first runs the collision pass, in which every ordered pair of
    distinct objects whose colliders intersect notifies both members, then
    updates every object, then renders every object. The calls the frame
    makes into the objects are recorded in an event trace, so the order and
    number of notifications can be stated. The functions `PairEvents`,
    `RowEvents` and `PassEvents` give the trace of the collision pass; the
    lemmas below count it, and the class `Scene` is proved to produce it. */
module Scenes {
  import opened JsMath
  import opened Vector
  import opened Components
  import opened Physics
  import opened GameObjects
  import opened Drones

  /** An entry of the scene's dictionary: a plain game object (an obstacle)
      or the drone. */
  datatype Entity = Base(obj: GameObject) | Piloted(drone: Drone) {
    function Name(): string {
      match this
      case Base(o) => o.name
      case Piloted(d) => d.name
    }

    function Obj(): object {
      match this
      case Base(o) => o
      case Piloted(d) => d
    }

    function BaseSet(): set<GameObject> {
      if Base? then {obj} else {}
    }

    function DroneSet(): set<Drone> {
      if Piloted? then {drone} else {}
    }
  }

  function TransformOf(e: Entity): Transform
    reads e.BaseSet()`transform, e.DroneSet()`transform
  {
    match e
    case Base(o) => o.transform
    case Piloted(d) => d.transform
  }

  /** The collider the collision pass builds from a transform. */
  function ColliderOf(t: Transform): BoxColliderOBB {
    BoxColliderOBB(t.position, t.size, t.rotation)
  }

  /** The oriented-box intersection test, which the scene takes as given. */
  type IntersectsTest = (BoxColliderOBB, BoxColliderOBB) -> bool

  /** A call the frame makes into an object, named by its key:
      `receiver.onCollision(other)`, `id.update(deltaTime)`, `id.render()`. */
  datatype Event =
    | Collision(receiver: string, other: string)
    | Updated(id: string, deltaTime: real)
    | Rendered(id: string)

  predicate Distinct(s: seq<string>) {
    forall m, n :: 0 <= m < n < |s| ==> s[m] != s[n]
  }

  /** Both colliders' transforms are known and the test accepts the pair
      (a, b). */
  predicate Hit(a: string, b: string, ts: map<string, Transform>, intersects: IntersectsTest) {
    a in ts && b in ts && intersects(ColliderOf(ts[a]), ColliderOf(ts[b]))
  }

  // ---------------------------------------------------------------------
  // The trace of the collision pass

  /** The inner loop's body for the keys i and j, over the transforms `ts`:
      nothing for an object against itself, both notifications on a hit. */
  function PairEvents(i: string, j: string, ts: map<string, Transform>, intersects: IntersectsTest): seq<Event> {
    if i == j then []
    else if Hit(i, j, ts, intersects) then [Collision(i, j), Collision(j, i)]
    else []
  }

  /** The inner loop for key i, over the keys js. */
  function RowEvents(i: string, js: seq<string>, ts: map<string, Transform>, intersects: IntersectsTest): seq<Event>
    decreases |js|
  {
    if js == [] then []
    else RowEvents(i, js[..|js| - 1], ts, intersects) + PairEvents(i, js[|js| - 1], ts, intersects)
  }

  /** The outer loop, over the keys rows, each against the keys js. */
  function PassEvents(rows: seq<string>, js: seq<string>, ts: map<string, Transform>, intersects: IntersectsTest): seq<Event>
    decreases |rows|
  {
    if rows == [] then []
    else PassEvents(rows[..|rows| - 1], js, ts, intersects) + RowEvents(rows[|rows| - 1], js, ts, intersects)
  }

  /** The update pass: every key in order, with the same frame length. */
  function UpdateEvents(ks: seq<string>, deltaTime: real): (r: seq<Event>)
    ensures |r| == |ks|
    ensures forall n :: 0 <= n < |ks| ==> r[n] == Updated(ks[n], deltaTime)
  {
    seq(|ks|, n requires 0 <= n < |ks| => Updated(ks[n], deltaTime))
  }

  /** The render pass: every key in order. */
  function RenderEvents(ks: seq<string>): (r: seq<Event>)
    ensures |r| == |ks|
    ensures forall n :: 0 <= n < |ks| ==> r[n] == Rendered(ks[n])
  {
    seq(|ks|, n requires 0 <= n < |ks| => Rendered(ks[n]))
  }

  /** `update` receives the milliseconds since the last frame, in seconds. */
  function FrameSeconds(now: int, lastRenderTime: int): real {
    (now - lastRenderTime) as real / 1000.0
  }

  function Phase(e: Event): nat {
    match e
    case Collision(_, _) => 0
    case Updated(_, _) => 1
    case Rendered(_) => 2
  }

  // ---------------------------------------------------------------------
  // Properties of the collision pass

  /** The outer loop's trace grows by one row per key. */
  lemma PassEventsAppend(rows: seq<string>, js: seq<string>, ts: map<string, Transform>,
                         intersects: IntersectsTest, n: nat)
    requires n < |rows|
    ensures PassEvents(rows[..n + 1], js, ts, intersects)
         == PassEvents(rows[..n], js, ts, intersects) + RowEvents(rows[n], js, ts, intersects)
  {
    assert rows[..n + 1][..n] == rows[..n];
  }

  /** The inner loop's trace grows by one pair per key. */
  lemma RowEventsAppend(i: string, js: seq<string>, ts: map<string, Transform>,
                        intersects: IntersectsTest, n: nat)
    requires n < |js|
    ensures RowEvents(i, js[..n + 1], ts, intersects)
         == RowEvents(i, js[..n], ts, intersects) + PairEvents(i, js[n], ts, intersects)
  {
    assert js[..n + 1][..n] == js[..n];
  }

  lemma {:induction false} TakeDistinct(js: seq<string>, n: nat)
    requires Distinct(js) && n <= |js|
    ensures Distinct(js[..n])
    ensures n < |js| ==> js[n] !in js[..n]
  {
  }

  /** Row i notifies a about b exactly when it is one of the two members
      of an intersecting pair tried in that row: a is i and tests b, or b
      is i and tests a. No other kind of event is produced. */
  lemma {:induction false} RowEventsMembership(i: string, js: seq<string>, ts: map<string, Transform>,
                                               intersects: IntersectsTest, e: Event)
    ensures e in RowEvents(i, js, ts, intersects) <==>
              e.Collision? && e.receiver != e.other &&
              ((e.receiver == i && e.other in js && Hit(i, e.other, ts, intersects)) ||
               (e.other == i && e.receiver in js && Hit(i, e.receiver, ts, intersects)))
    decreases |js|
  {
    if js != [] {
      var init := js[..|js| - 1];
      RowEventsMembership(i, init, ts, intersects, e);
      assert js == init + [js[|js| - 1]];
    }
  }

  /** The collision pass for outer keys rows and inner keys js notifies a
      about b exactly when a and b differ and the pair is tried in either
      order with an intersecting result: the notification goes both ways. */
  lemma {:induction false} PassEventsMembership(rows: seq<string>, js: seq<string>, ts: map<string, Transform>,
                                                intersects: IntersectsTest, e: Event)
    ensures e in PassEvents(rows, js, ts, intersects) <==>
              e.Collision? && e.receiver != e.other &&
              ((e.receiver in rows && e.other in js && Hit(e.receiver, e.other, ts, intersects)) ||
               (e.other in rows && e.receiver in js && Hit(e.other, e.receiver, ts, intersects)))
    decreases |rows|
  {
    if rows != [] {
      var init := rows[..|rows| - 1];
      var last := rows[|rows| - 1];
      PassEventsMembership(init, js, ts, intersects, e);
      RowEventsMembership(last, js, ts, intersects, e);
      assert rows == init + [last];
    }
  }

  /** No object is ever notified about itself. */
  lemma NoSelfNotification(keys: seq<string>, ts: map<string, Transform>, intersects: IntersectsTest, a: string)
    ensures Collision(a, a) !in PassEvents(keys, keys, ts, intersects)
  {
    PassEventsMembership(keys, keys, ts, intersects, Collision(a, a));
  }

  /** A pair that the test rejects in both orders produces no notification,
      and the pass makes no calls other than collision notifications. */
  lemma NoHitNoNotification(keys: seq<string>, ts: map<string, Transform>, intersects: IntersectsTest,
                            a: string, b: string, e: Event)
    ensures !Hit(a, b, ts, intersects) && !Hit(b, a, ts, intersects) ==>
              Collision(a, b) !in PassEvents(keys, keys, ts, intersects)
    ensures e in PassEvents(keys, keys, ts, intersects) ==> e.Collision?
  {
    PassEventsMembership(keys, keys, ts, intersects, Collision(a, b));
    PassEventsMembership(keys, keys, ts, intersects, e);
  }

  function Indicator(b: bool): nat {
    if b then 1 else 0
  }

  /** One pair of the inner loop notifies a about b once for each of the
      two orders in which (i, j) can be that pair. */
  lemma PairEventsCount(i: string, j: string, ts: map<string, Transform>,
                        intersects: IntersectsTest, a: string, b: string)
    ensures multiset(PairEvents(i, j, ts, intersects))[Collision(a, b)] ==
              Indicator(a != b && a == i && b == j && Hit(a, b, ts, intersects)) +
              Indicator(a != b && b == i && a == j && Hit(b, a, ts, intersects))
  {
  }

  /** With distinct inner keys, row i notifies a about b once for each of the
      two ways the pair can arise in that row. */
  lemma {:induction false} RowEventsCount(i: string, js: seq<string>, ts: map<string, Transform>,
                                          intersects: IntersectsTest, a: string, b: string)
    requires Distinct(js)
    ensures multiset(RowEvents(i, js, ts, intersects))[Collision(a, b)] ==
              Indicator(a != b && a == i && b in js && Hit(a, b, ts, intersects)) +
              Indicator(a != b && b == i && a in js && Hit(b, a, ts, intersects))
    decreases |js|
  {
    if js != [] {
      var init := js[..|js| - 1];
      var last := js[|js| - 1];
      TakeDistinct(js, |js| - 1);
      RowEventsCount(i, init, ts, intersects, a, b);
      PairEventsCount(i, last, ts, intersects, a, b);
      assert js == init + [last];
      assert b in js <==> b in init || b == last;
      assert a in js <==> a in init || a == last;
      assert multiset(RowEvents(i, js, ts, intersects))
          == multiset(RowEvents(i, init, ts, intersects)) + multiset(PairEvents(i, last, ts, intersects));
    }
  }

  /** With distinct keys on both loops, the pass notifies a about b once for
      each of the two ordered pairs {a, b} gives rise to. */
  lemma {:induction false} PassEventsCount(rows: seq<string>, js: seq<string>, ts: map<string, Transform>,
                                           intersects: IntersectsTest, a: string, b: string)
    requires Distinct(rows) && Distinct(js)
    ensures multiset(PassEvents(rows, js, ts, intersects))[Collision(a, b)] ==
              Indicator(a != b && a in rows && b in js && Hit(a, b, ts, intersects)) +
              Indicator(a != b && b in rows && a in js && Hit(b, a, ts, intersects))
    decreases |rows|
  {
    if rows != [] {
      var init := rows[..|rows| - 1];
      var last := rows[|rows| - 1];
      TakeDistinct(rows, |rows| - 1);
      PassEventsCount(init, js, ts, intersects, a, b);
      RowEventsCount(last, js, ts, intersects, a, b);
      assert rows == init + [last];
      assert b in rows <==> b in init || b == last;
      assert a in rows <==> a in init || a == last;
      assert multiset(PassEvents(rows, js, ts, intersects))
          == multiset(PassEvents(init, js, ts, intersects)) + multiset(RowEvents(last, js, ts, intersects));
    }
  }

  /** With a symmetric intersection test, one pass notifies each object
      exactly twice about every distinct partner it overlaps, and never
      about any other. */
  lemma TwoNotificationsPerOverlap(keys: seq<string>, ts: map<string, Transform>, intersects: IntersectsTest,
                                   a: string, b: string)
    requires Distinct(keys)
    requires forall p, q :: intersects(p, q) == intersects(q, p)
    ensures multiset(PassEvents(keys, keys, ts, intersects))[Collision(a, b)] ==
              if a != b && a in keys && b in keys && Hit(a, b, ts, intersects) then 2 else 0
  {
    PassEventsCount(keys, keys, ts, intersects, a, b);
    if a in ts && b in ts {
      assert Hit(a, b, ts, intersects) == Hit(b, a, ts, intersects);
    }
  }

  /** A frame's calls come in three phases: every collision notification
      before every update, every update before every render. */
  lemma FramePhasesInOrder(keys: seq<string>, ts: map<string, Transform>, intersects: IntersectsTest,
                           deltaTime: real)
    ensures var trace := PassEvents(keys, keys, ts, intersects) + UpdateEvents(keys, deltaTime) + RenderEvents(keys);
            forall m, n :: 0 <= m < n < |trace| ==> Phase(trace[m]) <= Phase(trace[n])
  {
    var pass := PassEvents(keys, keys, ts, intersects);
    var trace := pass + UpdateEvents(keys, deltaTime) + RenderEvents(keys);
    forall n | 0 <= n < |trace|
      ensures Phase(trace[n]) == if n < |pass| then 0 else if n < |pass| + |keys| then 1 else 2
    {
      if n < |pass| {
        PassEventsMembership(keys, keys, ts, intersects, trace[n]);
        assert trace[n] in pass;
      }
    }
  }

  // ---------------------------------------------------------------------
  // The scene

  class Scene {
    var gameObjects: map<string, Entity>
    /** The dictionary's keys in insertion order, the order `for…in` visits
        them. */
    var keys: seq<string>
    var lastRenderTime: int
    /** The calls made into the objects so far. */
    var events: seq<Event>

    /** The keys list the dictionary's keys once each, and every object is
        filed under its own name, so two keys hold the same object only if
        they are the same key. */
    predicate Valid()
      reads this`gameObjects, this`keys
    {
      Distinct(keys) && Filed()
    }

    /** The keys are exactly the dictionary's keys, and every object is
        filed under its own name. */
    predicate Filed()
      reads this`gameObjects, this`keys
    {
      (forall k :: k in gameObjects ==> k in keys)
      && (forall k :: k in keys ==> k in gameObjects)
      && (forall k :: k in gameObjects ==> gameObjects[k].Name() == k)
    }

    function BaseObjects(): set<GameObject>
      reads this`gameObjects
    {
      set k | k in gameObjects && gameObjects[k].Base? :: gameObjects[k].obj
    }

    /** The drones in the scene. */
    function Pilots(): set<Drone>
      reads this`gameObjects
    {
      set k | k in gameObjects && gameObjects[k].Piloted? :: gameObjects[k].drone
    }

    /** The current transform of every object, by key. It reads only the
        dictionary and the objects' transforms; its frame is left open so
        that the passes need not carry that footprint. */
    function Transforms(): map<string, Transform>
      reads *
    {
      map k | k in gameObjects :: TransformOf(gameObjects[k])
    }

    /** A new scene is empty; its clock starts at `now`. */
    constructor (now: int)
      ensures Valid()
      ensures gameObjects == map[] && keys == [] && events == []
      ensures lastRenderTime == now
    {
      gameObjects := map[];
      keys := [];
      lastRenderTime := now;
      events := [];
    }

    /** `gameObjects[e.name] = e`: a new name goes to the end of the
        iteration order, an existing one is replaced where it stands. */
    method Add(e: Entity)
      requires Valid()
      modifies this
      ensures Valid()
      ensures gameObjects == old(gameObjects)[e.Name() := e]
      ensures keys == if e.Name() in old(gameObjects) then old(keys) else old(keys) + [e.Name()]
      ensures lastRenderTime == old(lastRenderTime) && events == old(events)
    {
      if e.Name() !in gameObjects {
        keys := keys + [e.Name()];
      }
      gameObjects := gameObjects[e.Name() := e];
    }

    /** Every ordered pair of distinct objects is tested once, in key order;
        when the colliders intersect, the first is notified of the second and
        then the second of the first. The notifications made are returned in
        order; nothing in the scene changes. */
    method HandleCollisions(intersects: IntersectsTest) returns (notified: seq<Event>)
      requires Filed()
      ensures notified == PassEvents(keys, keys, Transforms(), intersects)
    {
      notified := [];
      var i := 0;
      while i < |keys|
        invariant 0 <= i <= |keys|
        invariant notified == PassEvents(keys[..i], keys, Transforms(), intersects)
        decreases |keys| - i
      {
        var gameObjectI := gameObjects[keys[i]];
        var colliderI := ColliderOf(TransformOf(gameObjectI));
        assert colliderI == ColliderOf(Transforms()[keys[i]]);
        var row := [];
        var j := 0;
        while j < |keys|
          invariant 0 <= j <= |keys|
          invariant row == RowEvents(keys[i], keys[..j], Transforms(), intersects)
          decreases |keys| - j
        {
          var gameObjectJ := gameObjects[keys[j]];
          var pair := [];
          if gameObjectI == gameObjectJ {
            assert gameObjectI.Name() == keys[i] && gameObjectJ.Name() == keys[j];
          } else {
            var colliderJ := ColliderOf(TransformOf(gameObjectJ));
            assert colliderJ == ColliderOf(Transforms()[keys[j]]);
            if intersects(colliderI, colliderJ) {
              pair := [Collision(keys[i], keys[j]), Collision(keys[j], keys[i])];
            }
          }
          assert pair == PairEvents(keys[i], keys[j], Transforms(), intersects);
          RowEventsAppend(keys[i], keys, Transforms(), intersects, j);
          row := row + pair;
          j := j + 1;
        }
        assert keys[..|keys|] == keys;
        PassEventsAppend(keys, keys, Transforms(), intersects, i);
        notified := notified + row;
        i := i + 1;
      }
      assert keys[..|keys|] == keys;
    }

    /** Calls `update(deltaTime)` on every object in key order and returns
        the calls made: the drone takes one physics step, the other objects
        stay where they are. */
    method UpdatePass(deltaTime: real, math: MathLib) returns (updated: seq<Event>)
      requires Valid()
      modifies Pilots()
      ensures updated == UpdateEvents(keys, deltaTime)
      ensures forall k :: k in gameObjects && gameObjects[k].Piloted? ==>
                gameObjects[k].drone.State() == Step(old(gameObjects[k].drone.State()), deltaTime, math)
      ensures forall k :: k in gameObjects && gameObjects[k].Base? ==>
                gameObjects[k].obj.transform == old(gameObjects[k].obj.transform)
    {
      updated := [];
      var idx := 0;
      while idx < |keys|
        invariant 0 <= idx <= |keys|
        invariant updated == UpdateEvents(keys[..idx], deltaTime)
        invariant forall n :: 0 <= n < |keys| && gameObjects[keys[n]].Piloted? ==>
                    gameObjects[keys[n]].drone.State() ==
                      if n < idx then Step(old(gameObjects[keys[n]].drone.State()), deltaTime, math)
                      else old(gameObjects[keys[n]].drone.State())
        decreases |keys| - idx
      {
        var key := keys[idx];
        match gameObjects[key] {
          case Base(o) =>
            o.Update(deltaTime);
          case Piloted(d) =>
            assert d in Pilots();
            forall n | 0 <= n < |keys| && n != idx && gameObjects[keys[n]].Piloted?
              ensures gameObjects[keys[n]].drone != d
            {
              assert gameObjects[keys[n]].Name() == keys[n];
            }
            d.Update(deltaTime, math);
        }
        assert UpdateEvents(keys[..idx + 1], deltaTime) == UpdateEvents(keys[..idx], deltaTime) + [Updated(key, deltaTime)];
        updated := updated + [Updated(key, deltaTime)];
        idx := idx + 1;
      }
      assert keys[..|keys|] == keys;
      forall k | k in gameObjects && gameObjects[k].Piloted?
        ensures gameObjects[k].drone.State() == Step(old(gameObjects[k].drone.State()), deltaTime, math)
      {
        var n :| 0 <= n < |keys| && keys[n] == k;
      }
    }

    /** Calls `render()` on every object in key order and returns the calls
        made. Drawing is not part of this model. */
    method RenderPass() returns (rendered: seq<Event>)
      requires Valid()
      ensures rendered == RenderEvents(keys)
    {
      rendered := [];
      var idx := 0;
      while idx < |keys|
        invariant 0 <= idx <= |keys|
        invariant rendered == RenderEvents(keys[..idx])
        decreases |keys| - idx
      {
        assert RenderEvents(keys[..idx + 1]) == RenderEvents(keys[..idx]) + [Rendered(keys[idx])];
        rendered := rendered + [Rendered(keys[idx])];
        idx := idx + 1;
      }
      assert keys[..|keys|] == keys;
    }

    /** One run of the game loop, with the clock read at its start (`now`) and
        at its end (`finishedAt`): collisions, then updates with the elapsed
        time in seconds, then renders, all appended to the trace. Scheduling
        the next frame is not part of this model. */
    method Tick(now: int, finishedAt: int, intersects: IntersectsTest, math: MathLib)
      requires Valid()
      modifies this`events, this`lastRenderTime, Pilots()
      ensures events == old(events) + PassEvents(keys, keys, old(Transforms()), intersects)
                        + UpdateEvents(keys, FrameSeconds(now, old(lastRenderTime)))
                        + RenderEvents(keys)
      ensures forall k :: k in gameObjects && gameObjects[k].Piloted? ==>
                gameObjects[k].drone.State() ==
                  Step(old(gameObjects[k].drone.State()), FrameSeconds(now, old(lastRenderTime)), math)
      ensures forall k :: k in gameObjects && gameObjects[k].Base? ==>
                gameObjects[k].obj.transform == old(gameObjects[k].obj.transform)
      ensures lastRenderTime == finishedAt
    {
      var deltaTime := now - lastRenderTime;
      var notified := HandleCollisions(intersects);
      var seconds := deltaTime as real / 1000.0;
      assert seconds == FrameSeconds(now, old(lastRenderTime));
      var updated := UpdatePass(seconds, math);
      var rendered := RenderPass();
      events := events + notified + updated + rendered;
      lastRenderTime := finishedAt;
    }
  }
}
