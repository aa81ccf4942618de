/**
 The container engine as the node manager uses it, and the three reconcile
 operations of util/util.go on top of it.

 The engine's state is a map from container ids to containers.  What one operation
 may do to that state, whatever engine call fails on the way, is a relation
 (`StartRel`, `StopRel`, `RemoveRel`); the methods of `Engine` follow the source
 call by call and are proved to stay inside the relation, and the promises made to
 callers are lemmas about the relation.

 Faults: any engine call may report an error.  A call that reports an error leaves
 the container in place, but a failed start, stop or forced removal may still have
 changed whether it runs.  `faults` counts such errors, so that a contract can say what
 a call must achieve when there are none.
 */
module Docker {
  import opened Prelude

  type Id = nat

  datatype Container = Container(names: seq<string>, image: string, args: seq<string>, running: bool)

  type Containers = map<Id, Container>

  datatype Error = Conflict | Failed

  type Err = Option<Error>

  // ---------------------------------------------------------------- engine state

  ghost predicate Named(m: Containers, id: Id, name: string) {
    id in m && "/" + name in m[id].names
  }

  ghost predicate NameFree(m: Containers, name: string) {
    forall id :: !Named(m, id, name)
  }

  /** The engine never gives one name to two containers, and every name it lists
      carries a leading slash. */
  ghost predicate WellNamed(m: Containers) {
    && (forall i, j, n :: i in m && j in m && n in m[i].names && n in m[j].names ==> i == j)
    && (forall i, n :: i in m && n in m[i].names ==> |n| > 0 && n[0] == '/')
  }

  /** `m'` agrees with `m` on every container that does not carry `name`. */
  ghost predicate OthersUnchanged(m: Containers, m': Containers, name: string) {
    && (forall id :: id in m && !Named(m, id, name) ==> id in m' && m'[id] == m[id])
    && (forall id :: id in m' && !Named(m', id, name) ==> id in m && m[id] == m'[id])
  }

  function Fresh(name: string, image: string, args: seq<string>, running: bool): Container {
    Container(["/" + name], image, args, running)
  }

  // ------------------------------------------------- what each operation may do

  ghost predicate StopRel(m: Containers, name: string, m': Containers, err: Err) {
    || (m' == m && (err.Some? || forall id :: Named(m, id, name) ==> !m[id].running))
    || (exists id :: Named(m, id, name) && m[id].running && m' == m[id := m[id].(running := false)])
  }

  ghost predicate RemoveRel(m: Containers, name: string, m': Containers, err: Err) {
    || (m' == m && (err.Some? || NameFree(m, name)))
    || (exists id :: Named(m, id, name) &&
                     m' == if err.None? then m - {id} else m[id := m[id].(running := false)])
  }

  ghost predicate Reused(m: Containers, name: string, image: string, m': Containers) {
    exists id :: Named(m, id, name) && m[id].image == image && m' == m[id := m[id].(running := true)]
  }

  ghost predicate Created(m: Containers, base: Containers, name: string, image: string, args: seq<string>,
                          m': Containers, err: Err) {
    exists id: Id, running: bool :: id !in m && (err.None? ==> running) &&
                          m' == base[id := Fresh(name, image, args, running)]
  }

  /** The holder of the name has another image and is being replaced: stopped,
      then removed, then created anew; an error may strike after each step. */
  ghost predicate Replaced(m: Containers, name: string, image: string, args: seq<string>, m': Containers, err: Err) {
    exists prior: Id :: Named(m, prior, name) && m[prior].image != image &&
                    (|| (err.Some? && m' == m[prior := m[prior].(running := false)])
                     || (err.Some? && m' == m - {prior})
                     || Created(m, m - {prior}, name, image, args, m', err))
  }

  /** What stopping and removing the holder `prior` of the name may leave. */
  ghost predicate Cleared(m: Containers, name: string, prior: Id, m': Containers, err: Err) {
    && Named(m, prior, name)
    && err != Some(Conflict)
    && (err.None? ==> m' == m - {prior})
    && (err.Some? ==> m' == m || m' == m[prior := m[prior].(running := false)])
  }

  ghost predicate ImageClash(m: Containers, name: string, image: string) {
    exists id :: Named(m, id, name) && m[id].image != image
  }

  ghost predicate StartRel(m: Containers, name: string, removeOld: bool, image: string, args: seq<string>,
                           m': Containers, err: Err) {
    && (err == Some(Conflict) ==> !removeOld && ImageClash(m, name, image))
    && (|| (m' == m && err.Some?)
        || Reused(m, name, image, m')
        || (NameFree(m, name) && Created(m, m, name, image, args, m', err))
        || (removeOld && Replaced(m, name, image, args, m', err)))
  }

  /** The containers the upgrade may delete: the configured node image, or any
      image whose name mentions dcstorage. */
  predicate Removable(c: Container, nodeImage: string) {
    c.image == nodeImage || Contains(c.image, "dcstorage")
  }

  ghost predicate RemoveNodeRel(m: Containers, nodeImage: string, m': Containers, err: Err) {
    && m'.Keys <= m.Keys
    && (forall id :: id in m' ==> || m'[id] == m[id]
                                  || (Removable(m[id], nodeImage) && m'[id] == m[id].(running := false)))
    && (forall id :: id in m && id !in m' ==> Removable(m[id], nodeImage))
    && (forall i, j :: i in m && j in m && i !in m' && j !in m' ==> i == j)
    && (err.Some? ==> m'.Keys == m.Keys)
    && (err.None? ==> || m'.Keys != m.Keys
                      || (m' == m && forall id :: id in m ==> !Removable(m[id], nodeImage)))
  }

  // ---------------------------------------------------------------- promises

  lemma SetRunningKeepsNames(m: Containers, id: Id, running: bool)
    requires WellNamed(m) && id in m
    ensures WellNamed(m[id := m[id].(running := running)])
  {
    var m' := m[id := m[id].(running := running)];
    assert forall i :: i in m ==> m'[i].names == m[i].names;
  }

  lemma DropKeepsNames(m: Containers, id: Id)
    requires WellNamed(m)
    ensures WellNamed(m - {id})
  {
    var m' := m - {id};
    assert forall i :: i in m' ==> i in m && m'[i] == m[i];
  }

  lemma FreshKeepsNames(m: Containers, id: Id, name: string, image: string, args: seq<string>, running: bool)
    requires WellNamed(m) && id !in m && NameFree(m, name)
    ensures var m' := m[id := Fresh(name, image, args, running)];
            WellNamed(m') && forall i :: Named(m', i, name) <==> i == id
  {
    var m' := m[id := Fresh(name, image, args, running)];
    assert m'[id].names == ["/" + name];
    forall i, n | i in m' && n in m'[i].names
      ensures (n == "/" + name <==> i == id) && |n| > 0 && n[0] == '/'
    {
      if i == id {
        assert n == "/" + name;
      } else {
        assert i in m && !Named(m, i, name);
      }
    }
  }

  /** A nil result of StartContainer: the name has one holder, it has the requested
      image and runs, and nothing else changed. */
  lemma StartReconciles(m: Containers, name: string, removeOld: bool, image: string, args: seq<string>,
                        m': Containers, err: Err)
    requires WellNamed(m) && StartRel(m, name, removeOld, image, args, m', err)
    ensures WellNamed(m') && OthersUnchanged(m, m', name)
    ensures err.None? ==>
              exists id :: && Named(m', id, name) && m'[id].image == image && m'[id].running
                           && forall j :: Named(m', j, name) ==> j == id
  {
    if m' == m && err.Some? {
    } else if Reused(m, name, image, m') {
      var id :| Named(m, id, name) && m[id].image == image && m' == m[id := m[id].(running := true)];
      SetRunningKeepsNames(m, id, true);
      assert Named(m', id, name);
    } else if NameFree(m, name) && Created(m, m, name, image, args, m', err) {
      var id: Id, running: bool :| id !in m && (err.None? ==> running) && m' == m[id := Fresh(name, image, args, running)];
      FreshKeepsNames(m, id, name, image, args, running);
      assert Named(m', id, name);
    } else {
      ReplacedReconciles(m, name, image, args, m', err);
    }
  }

  lemma ReplacedReconciles(m: Containers, name: string, image: string, args: seq<string>, m': Containers, err: Err)
    requires WellNamed(m) && Replaced(m, name, image, args, m', err)
    ensures WellNamed(m') && OthersUnchanged(m, m', name)
    ensures err.None? ==>
              exists id :: && Named(m', id, name) && m'[id].image == image && m'[id].running
                           && forall j :: Named(m', j, name) ==> j == id
  {
    var prior: Id :| Named(m, prior, name) && m[prior].image != image &&
                 (|| (err.Some? && m' == m[prior := m[prior].(running := false)])
                  || (err.Some? && m' == m - {prior})
                  || Created(m, m - {prior}, name, image, args, m', err));
    SetRunningKeepsNames(m, prior, false);
    DropKeepsNames(m, prior);
    assert NameFree(m - {prior}, name);
    if Created(m, m - {prior}, name, image, args, m', err) {
      var id: Id, running: bool :| id !in m && (err.None? ==> running) &&
                         m' == (m - {prior})[id := Fresh(name, image, args, running)];
      FreshKeepsNames(m - {prior}, id, name, image, args, running);
      assert Named(m', id, name);
    }
  }

  /** Only a fault makes a call fail. */
  predicate Blames(before: nat, after: nat, err: Err) {
    before <= after && (err.Some? && err != Some(Conflict) ==> before < after)
  }

  /** Without a fault StartContainer fails exactly on a clash it may not resolve. */
  lemma StartWithoutFault(m: Containers, name: string, removeOld: bool, image: string, args: seq<string>,
                          m': Containers, err: Err, faults: nat)
    requires WellNamed(m) && StartRel(m, name, removeOld, image, args, m', err) && Blames(faults, faults, err)
    ensures err.None? <==> removeOld || !ImageClash(m, name, image)
  {
    if ImageClash(m, name, image) && !removeOld {
      StartRespectsOtherImage(m, name, image, args, m', err);
    }
  }

  /** Once reconciled, another call finds nothing to do, whatever fails in it. */
  lemma StartIsIdempotent(m: Containers, name: string, removeOld: bool, image: string, args: seq<string>,
                          m': Containers, err: Err, again: bool, args2: seq<string>, m'': Containers, err2: Err)
    requires WellNamed(m) && StartRel(m, name, removeOld, image, args, m', err) && err.None?
    requires StartRel(m', name, again, image, args2, m'', err2)
    ensures m'' == m'
  {
    StartReconciles(m, name, removeOld, image, args, m', err);
    var id :| Named(m', id, name) && m'[id].image == image && m'[id].running;
    assert !NameFree(m', name);
    assert m'[id := m'[id].(running := true)] == m';
  }

  /** A container that already has the requested image is never created anew; it keeps
      its id, its flags and everything but its running bit. */
  lemma StartKeepsSameImage(m: Containers, name: string, removeOld: bool, image: string, args: seq<string>,
                            m': Containers, err: Err, id: Id)
    requires WellNamed(m) && StartRel(m, name, removeOld, image, args, m', err)
    requires Named(m, id, name) && m[id].image == image
    ensures m' == m || m' == m[id := m[id].(running := true)]
  {
    assert forall i :: Named(m, i, name) ==> i == id;
  }

  /** Without permission to replace, a clash with another image changes nothing and
      is reported. */
  lemma StartRespectsOtherImage(m: Containers, name: string, image: string, args: seq<string>,
                                m': Containers, err: Err)
    requires WellNamed(m) && StartRel(m, name, false, image, args, m', err)
    requires ImageClash(m, name, image)
    ensures m' == m && err.Some?
  {
    var id :| Named(m, id, name) && m[id].image != image;
    assert forall i :: Named(m, i, name) ==> i == id;
  }

  /** A nil result of StopContainer: no container of that name runs; only the name's
      holder changed and it still exists with the same image and flags. */
  lemma StopStops(m: Containers, name: string, m': Containers, err: Err)
    requires WellNamed(m) && StopRel(m, name, m', err)
    ensures WellNamed(m') && OthersUnchanged(m, m', name) && m'.Keys == m.Keys
    ensures forall id :: id in m ==> m'[id] == m[id] || m'[id] == m[id].(running := false)
    ensures err.None? ==> forall id :: Named(m', id, name) ==> !m'[id].running
  {
    if !(m' == m && (err.Some? || forall id :: Named(m, id, name) ==> !m[id].running)) {
      var id :| Named(m, id, name) && m[id].running && m' == m[id := m[id].(running := false)];
      assert forall i :: Named(m, i, name) ==> i == id;
      assert Named(m', id, name);
    }
  }

  /** A nil result of RemoveContainer: the name is free, every other container is
      untouched. */
  lemma RemoveFreesName(m: Containers, name: string, m': Containers, err: Err)
    requires WellNamed(m) && RemoveRel(m, name, m', err)
    ensures WellNamed(m') && OthersUnchanged(m, m', name)
    ensures err.None? ==> NameFree(m', name)
    ensures err.Some? ==> m'.Keys == m.Keys
  {
    if !(m' == m && (err.Some? || NameFree(m, name))) {
      var id :| Named(m, id, name) && m' == if err.None? then m - {id} else m[id := m[id].(running := false)];
      assert forall i :: Named(m, i, name) ==> i == id;
    }
  }

  /** A container whose image is neither the configured node image nor a dcstorage
      image survives the removal of the old node untouched. */
  lemma RemoveNodeSpares(m: Containers, nodeImage: string, m': Containers, err: Err, id: Id)
    requires RemoveNodeRel(m, nodeImage, m', err) && id in m && !Removable(m[id], nodeImage)
    ensures id in m' && m'[id] == m[id]
  {
  }

  /** When the holder of the name was the only removable container and the removal
      succeeded, starting the new node cannot be refused for a name conflict. */
  lemma RemovalClearsTheWay(m: Containers, nodeImage: string, m': Containers, err: Err, holder: Id,
                            name: string, image: string, args: seq<string>, m'': Containers, err2: Err)
    requires WellNamed(m) && RemoveNodeRel(m, nodeImage, m', err) && err.None?
    requires Named(m, holder, name) && Removable(m[holder], nodeImage)
    requires forall id :: id in m && Removable(m[id], nodeImage) ==> id == holder
    requires StartRel(m', name, false, image, args, m'', err2)
    ensures NameFree(m', name) && err2 != Some(Conflict)
  {
    assert holder !in m' by {
      assert Removable(m[holder], nodeImage);
      var gone :| gone in m && gone !in m';
    }
    forall id: Id ensures !Named(m', id, name) {
      if id in m' {
        assert m'[id].names == m[id].names && "/" + name in m[holder].names;
      }
    }
  }

  lemma RemoveNodeWellNamed(m: Containers, nodeImage: string, m': Containers, err: Err)
    requires WellNamed(m) && RemoveNodeRel(m, nodeImage, m', err)
    ensures WellNamed(m')
  {
    assert forall id :: id in m' ==> m'[id].names == m[id].names;
  }

  lemma OthersStillUnchanged(m: Containers, m1: Containers, m2: Containers, name: string)
    requires OthersUnchanged(m, m1, name) && OthersUnchanged(m1, m2, name)
    ensures OthersUnchanged(m, m2, name)
  {
  }

  // ---------------------------------------------------------------- the engine

  datatype Row = Row(id: Id, container: Container)

  /** One row for each container listed, in whatever order the engine chooses. */
  ghost predicate Listing(m: Containers, all: bool, rows: seq<Row>) {
    && (forall k :: 0 <= k < |rows| ==> && rows[k].id in m && rows[k].container == m[rows[k].id]
                                        && (all || rows[k].container.running))
    && (forall id :: id in m && (all || m[id].running) ==> exists k :: 0 <= k < |rows| && rows[k].id == id)
    && (forall j, k :: 0 <= j < k < |rows| ==> rows[j].id != rows[k].id)
  }

  /** The search that StartContainer, StopContainer and RemoveContainer share: two
      nested loops whose break leaves the inner one only, so the last match counts. */
  method Search(rows: seq<Row>, name: string, image: Option<string>) returns (found: Option<Id>)
    ensures found.Some? ==> exists k :: && 0 <= k < |rows| && rows[k].id == found.value
                                        && "/" + name in rows[k].container.names
                                        && (image.Some? ==> rows[k].container.image == image.value)
    ensures found.None? ==> forall k :: && 0 <= k < |rows|
                                        && (image.Some? ==> rows[k].container.image == image.value)
                                        ==> "/" + name !in rows[k].container.names
  {
    found := None;
    for i := 0 to |rows|
      invariant found.Some? ==> exists k :: && 0 <= k < i && rows[k].id == found.value
                                            && "/" + name in rows[k].container.names
                                            && (image.Some? ==> rows[k].container.image == image.value)
      invariant found.None? ==> forall k :: && 0 <= k < i
                                            && (image.Some? ==> rows[k].container.image == image.value)
                                            ==> "/" + name !in rows[k].container.names
    {
      if image == None || rows[i].container.image == image.value {
        var names := rows[i].container.names;
        var j := 0;
        ghost var before := found;
        while j < |names|
          invariant 0 <= j <= |names|
          invariant found == before && "/" + name !in names[..j]
        {
          if names[j] == "/" + name {
            found := Some(rows[i].id);
            break;
          }
          j := j + 1;
        }
      }
    }
  }

  /** What a new container is added to: everything there was, or all but the old holder. */
  ghost predicate MadeRoom(m: Containers, base: Containers, name: string, removeOld: bool, image: string) {
    || (base == m && NameFree(m, name))
    || (removeOld && exists prior: Id :: Named(m, prior, name) && m[prior].image != image && base == m - {prior})
  }

  lemma StartsFresh(m: Containers, base: Containers, name: string, removeOld: bool, image: string, args: seq<string>,
                    id: Id, m': Containers, err: Err)
    requires MadeRoom(m, base, name, removeOld, image) && id !in m && err != Some(Conflict)
    requires || (err.Some? && m' == base[id := Fresh(name, image, args, false)])
             || m' == base[id := Fresh(name, image, args, true)]
    ensures StartRel(m, name, removeOld, image, args, m', err)
  {
    assert Created(m, base, name, image, args, m', err);
    if base != m {
      var prior: Id :| Named(m, prior, name) && m[prior].image != image && base == m - {prior};
      assert Replaced(m, name, image, args, m', err);
    }
  }

  class Engine {
    var containers: Containers
    var nextId: Id  // the engine never gives out an id twice
    ghost var faults: nat

    ghost predicate Valid()
      reads this
    {
      WellNamed(containers) && forall id :: id in containers ==> id < nextId
    }

    constructor ()
      ensures Valid() && containers == map[] && faults == 0
    {
      containers := map[];
      nextId, faults := 0, 0;
    }

    // ------------------------------------------------ single engine calls

    method List(all: bool) returns (rows: seq<Row>, err: Err)
      modifies this`faults
      ensures err.None? ==> Listing(containers, all, rows)
      ensures err != Some(Conflict) && Blames(old(faults), faults, err)
    {
      rows := [];
      var fault := *;
      if fault {
        faults := faults + 1;
        return rows, Some(Failed);
      }
      var todo: set<Id> := containers.Keys;
      while todo != {}
        invariant todo <= containers.Keys
        invariant forall k :: 0 <= k < |rows| ==> && rows[k].id in containers && rows[k].id !in todo
                                                  && rows[k].container == containers[rows[k].id]
                                                  && (all || rows[k].container.running)
        invariant forall j, k :: 0 <= j < k < |rows| ==> rows[j].id != rows[k].id
        invariant forall id :: id in containers && id !in todo && (all || containers[id].running)
                               ==> exists k :: 0 <= k < |rows| && rows[k].id == id
      {
        var id :| id in todo;
        ghost var before := rows;
        if all || containers[id].running {
          rows := rows + [Row(id, containers[id])];
          assert rows[|before|].id == id;
        }
        todo := todo - {id};
        forall i | i in containers && i !in todo && i != id && (all || containers[i].running)
          ensures exists k :: 0 <= k < |rows| && rows[k].id == i
        {
          var k :| 0 <= k < |before| && before[k].id == i;
          assert rows[k].id == i;
        }
      }
      err := None;
    }

    method Create(name: string, image: string, args: seq<string>) returns (id: Id, err: Err)
      requires forall i :: i in containers ==> i < nextId
      modifies this
      ensures old(nextId) <= nextId && forall i :: i in containers ==> i < nextId
      ensures Blames(old(faults), faults, err)
      ensures err == Some(Conflict) ==> !NameFree(old(containers), name)
      ensures err.Some? ==> containers == old(containers)
      ensures err.None? ==> && id >= old(nextId) && NameFree(old(containers), name)
                            && containers == old(containers)[id := Fresh(name, image, args, false)]
    {
      id := 0;
      var rows, lerr := List(true);
      if lerr.Some? { return id, lerr; }
      var holder := Search(rows, name, None);
      if holder.Some? {
        assert Named(containers, holder.value, name);
        return id, Some(Conflict);
      }
      id := nextId;
      nextId := nextId + 1;
      containers := containers[id := Fresh(name, image, args, false)];
      err := None;
    }

    method Stop(id: Id) returns (err: Err)
      requires id in containers
      modifies this`containers, this`faults
      ensures err != Some(Conflict) && Blames(old(faults), faults, err)
      ensures || (containers == old(containers) && err.Some?)
              || containers == old(containers)[id := old(containers)[id].(running := false)]
    {
      err := SetRunning(id, false);
    }

    method Start(id: Id) returns (err: Err)
      requires id in containers
      modifies this`containers, this`faults
      ensures err != Some(Conflict) && Blames(old(faults), faults, err)
      ensures || (containers == old(containers) && err.Some?)
              || containers == old(containers)[id := old(containers)[id].(running := true)]
    {
      err := SetRunning(id, true);
    }

    method SetRunning(id: Id, running: bool) returns (err: Err)
      requires id in containers
      modifies this`containers, this`faults
      ensures err != Some(Conflict) && Blames(old(faults), faults, err)
      ensures || (containers == old(containers) && err.Some?)
              || containers == old(containers)[id := old(containers)[id].(running := running)]
    {
      var fault, effect := *, *;
      if !fault || effect {
        containers := containers[id := containers[id].(running := running)];
      }
      if fault {
        faults := faults + 1;
      }
      err := if fault then Some(Failed) else None;
    }

    method Remove(id: Id) returns (err: Err)
      requires id in containers
      modifies this`containers, this`faults
      ensures err != Some(Conflict) && Blames(old(faults), faults, err)
      ensures err.None? ==> containers == old(containers) - {id}
      ensures err.Some? ==> || containers == old(containers)
                            || containers == old(containers)[id := old(containers)[id].(running := false)]
    {
      var fault, killed := *, *;
      if !fault {
        containers := containers - {id};
        return None;
      }
      if killed {
        containers := containers[id := containers[id].(running := false)];
      }
      faults := faults + 1;
      err := Some(Failed);
    }

    method Inspect(id: Id) returns (running: bool, err: Err)
      requires id in containers
      modifies this`faults
      ensures err != Some(Conflict) && Blames(old(faults), faults, err)
      ensures err.None? ==> running == containers[id].running
    {
      var fault := *;
      running := containers[id].running;
      if fault {
        faults := faults + 1;
      }
      err := if fault then Some(Failed) else None;
    }

    // ------------------------------------------------ util/util.go

    method StartContainer(name: string, removeOld: bool, image: string, args: seq<string>) returns (err: Err)
      requires Valid()
      modifies this
      ensures Valid()
      ensures StartRel(old(containers), name, removeOld, image, args, containers, err)
      ensures Blames(old(faults), faults, err)
    {
      ghost var m := containers;
      err := Reconcile(name, removeOld, image, args);
      StartReconciles(m, name, removeOld, image, args, containers, err);
    }

    method Reconcile(name: string, removeOld: bool, image: string, args: seq<string>) returns (err: Err)
      requires Valid()
      modifies this
      ensures forall id :: id in containers ==> id < nextId
      ensures StartRel(old(containers), name, removeOld, image, args, containers, err)
      ensures Blames(old(faults), faults, err)
    {
      ghost var m := containers;
      var rows, lerr := List(true);
      if lerr.Some? { return lerr; }
      var found := Search(rows, name, Some(image));
      var containerId: Id;
      ghost var base := m;
      if found.Some? {
        containerId := found.value;
      } else {
        assert forall id: Id :: Named(m, id, name) ==> m[id].image != image;
        containerId, err, base := CreateOrReplace(name, removeOld, image, args);
        if err.Some? { return; }
      }
      err := StartUnlessRunning(containerId);
      if found.Some? {
        assert (containers == m && err.Some?) || Reused(m, name, image, containers);
      } else {
        StartsFresh(m, base, name, removeOld, image, args, containerId, containers, err);
      }
    }

    /** The second half of StartContainer. */
    method StartUnlessRunning(id: Id) returns (err: Err)
      requires id in containers
      modifies this`containers, this`faults
      ensures err != Some(Conflict) && Blames(old(faults), faults, err)
      ensures || (containers == old(containers) && err.Some?)
              || containers == old(containers)[id := old(containers)[id].(running := true)]
    {
      var running;
      running, err := Inspect(id);
      if err.None? {
        if running {
          assert containers[id := containers[id].(running := true)] == containers;
        } else {
          err := Start(id);
        }
      }
    }

    /** The branch of StartContainer taken when no listed container has both the name
        and the image. */
    method CreateOrReplace(name: string, removeOld: bool, image: string, args: seq<string>)
      returns (id: Id, err: Err, ghost base: Containers)
      requires Valid()
      requires forall i: Id :: Named(containers, i, name) ==> containers[i].image != image
      modifies this
      ensures forall i :: i in containers ==> i < nextId
      ensures err.Some? ==> StartRel(old(containers), name, removeOld, image, args, containers, err)
      ensures Blames(old(faults), faults, err)
      ensures err.None? ==> && id !in old(containers)
                            && containers == base[id := Fresh(name, image, args, false)]
                            && MadeRoom(old(containers), base, name, removeOld, image)
    {
      ghost var m := containers;
      base := containers;
      id, err := Create(name, image, args);
      if err == Some(Conflict) && removeOld {
        err := ClearName(name);
        ghost var prior: Id :| Cleared(m, name, prior, containers, err);
        assert err.Some? ==> containers == m || Replaced(m, name, image, args, containers, err);
        if err.None? {
          base := containers;
          id, err := Create(name, image, args);
          assert err.Some? ==> Replaced(m, name, image, args, containers, err) by {
            assert base == m - {prior};
          }
          assert NameFree(base, name);
        }
      } else if err == Some(Conflict) {
        assert ImageClash(m, name, image);
      }
    }

    /** The stop and forced removal by name inside StartContainer. */
    method ClearName(name: string) returns (err: Err)
      requires WellNamed(containers) && !NameFree(containers, name)
      modifies this`containers, this`faults
      ensures err != Some(Conflict) && Blames(old(faults), faults, err)
      ensures exists prior: Id :: Cleared(old(containers), name, prior, containers, err)
    {
      var id :| id in containers && "/" + name in containers[id].names;
      ghost var m := containers;
      err := Stop(id);
      if err.None? {
        err := Remove(id);
      }
      assert Cleared(m, name, id, containers, err);
    }

    method StopContainer(name: string) returns (err: Err)
      requires Valid()
      modifies this`containers, this`faults
      ensures Valid()
      ensures StopRel(old(containers), name, containers, err)
      ensures err != Some(Conflict) && Blames(old(faults), faults, err)
    {
      ghost var m := containers;
      var rows, lerr := List(false);
      if lerr.Some? { return lerr; }
      var found := Search(rows, name, None);
      err := None;
      if found.Some? {
        err := Stop(found.value);
        assert Named(m, found.value, name);
      }
      StopStops(m, name, containers, err);
    }

    method RemoveContainer(name: string) returns (err: Err)
      requires Valid()
      modifies this`containers, this`faults
      ensures Valid()
      ensures RemoveRel(old(containers), name, containers, err)
      ensures err != Some(Conflict) && Blames(old(faults), faults, err)
    {
      ghost var m := containers;
      var rows, lerr := List(true);
      if lerr.Some? { return lerr; }
      var found := Search(rows, name, None);
      err := None;
      if found.Some? {
        var id := found.value;
        assert Named(m, id, name);
        var running;
        running, err := Inspect(id);
        if err.None? && running {
          err := Stop(id);
        }
        if err.None? {
          err := Remove(id);
        }
      }
      RemoveFreesName(m, name, containers, err);
    }

    /** removeDcStorageNodeInDocker of command/command.go.  Its last test compares the
        bare service name with names that all start with a slash, so it never fires. */
    method RemoveNode(nodeImage: string) returns (err: Err)
      requires Valid()
      modifies this`containers, this`faults
      ensures Valid()
      ensures RemoveNodeRel(old(containers), nodeImage, containers, err)
      ensures forall id :: id in old(containers) && !Removable(old(containers)[id], nodeImage) ==>
                id in containers && containers[id] == old(containers)[id]
      ensures err.None? && (exists id, a, b :: && id in old(containers)
                                               && (|| old(containers)[id].image == nodeImage
                                                   || old(containers)[id].image == a + "dcstorage" + b))
              ==> exists id :: id in old(containers) && id !in containers
      ensures forall id :: id in old(containers) && id !in containers ==>
                old(containers)[id].image == nodeImage || exists a, b :: old(containers)[id].image == a + "dcstorage" + b
      ensures err != Some(Conflict) && Blames(old(faults), faults, err)
    {
      ghost var m := containers;
      err := RemoveFirstMatch(nodeImage);
      RemoveNodeWellNamed(m, nodeImage, containers, err);
      if id, a, b :| id in m && (m[id].image == nodeImage || m[id].image == a + "dcstorage" + b) {
        RemovableMeans(m[id], nodeImage, a, b);
        assert Removable(m[id], nodeImage);
      }
      forall id: Id | id in m && id !in containers
        ensures m[id].image == nodeImage || exists a, b :: m[id].image == a + "dcstorage" + b
      {
        if m[id].image != nodeImage {
          var a, b := ContainsSplits(m[id].image, "dcstorage");
        }
      }
    }

    method RemoveFirstMatch(nodeImage: string) returns (err: Err)
      requires Valid()
      modifies this`containers, this`faults
      ensures RemoveNodeRel(old(containers), nodeImage, containers, err)
      ensures err != Some(Conflict) && Blames(old(faults), faults, err)
    {
      ghost var m := containers;
      var rows;
      rows, err := List(true);
      if err.Some? { return; }
      for i := 0 to |rows|
        invariant Disturbed(m, containers, nodeImage)
        invariant err != Some(Conflict) && Blames(old(faults), faults, err)
        invariant forall k :: i <= k < |rows| ==> containers[rows[k].id] == m[rows[k].id]
        invariant err.None? ==> && containers == m
                                && forall k :: 0 <= k < i ==> !Removable(rows[k].container, nodeImage)
      {
        var row := rows[i];
        var bareName := "dcstorage" in row.container.names;
        NoBareName(m, row.id);
        if row.container.image == nodeImage || Contains(row.container.image, "dcstorage") || bareName {
          ghost var before := containers;
          err := Remove(row.id);
          if err.None? {
            OneRemoved(m, before, nodeImage, row.id);
            return;
          }
          assert Disturbed(m, containers, nodeImage);
        }
      }
      assert err.None? ==> forall id :: id in m ==> !Removable(m[id], nodeImage);
    }
  }

  /** "dcstorage" may stand anywhere in the image's name. */
  lemma RemovableMeans(c: Container, nodeImage: string, a: string, b: string)
    requires c.image == nodeImage || c.image == a + "dcstorage" + b
    ensures Removable(c, nodeImage)
  {
    ContainsAnywhere(a, "dcstorage", b);
  }

  lemma NoBareName(m: Containers, id: Id)
    requires WellNamed(m) && id in m
    ensures "dcstorage" !in m[id].names
  {
    assert "dcstorage"[0] == 'd';
  }

  /** After failed attempts: everything is still there, some matches no longer run. */
  ghost predicate Disturbed(m: Containers, m': Containers, nodeImage: string) {
    && m'.Keys == m.Keys
    && forall id :: id in m ==> || m'[id] == m[id]
                                || (Removable(m[id], nodeImage) && m'[id] == m[id].(running := false))
  }

  lemma OneRemoved(m: Containers, before: Containers, nodeImage: string, id: Id)
    requires Disturbed(m, before, nodeImage) && id in m && Removable(m[id], nodeImage)
    ensures RemoveNodeRel(m, nodeImage, before - {id}, None)
  {
    var m' := before - {id};
    assert id in m && id !in m';
    assert forall i :: i in m && i !in m' ==> i == id;
  }
}
