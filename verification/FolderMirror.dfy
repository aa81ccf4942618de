/**
 downloadFolderFromIpfs: mirroring a directory tree onto the local disk, one complete
 file download per leaf.
 */
module FolderMirror {
  import opened Prelude
  import opened DownloadSpec
  import opened DownloadProducer
  import opened DownloadPipeline
  import opened DownloadTheorems
  import opened DownloadNil

  type Path = seq<string>

  datatype Node = File(content: Bytes) | Dir

  type Disk = map<Path, Node>

  datatype Tree = Leaf(src: Source) | Branch(entries: seq<Entry>)

  datatype Entry = Entry(name: string, tree: Tree)

  /** What one file download left behind: its result, what disturbed it, whether the local
      file could be created, and what was flushed into it. */
  datatype Outcome = Outcome(ok: bool, cancelled: bool, failed: bool, created: bool, content: Bytes)

  /** Some run of the download of `src` ends like this. */
  ghost predicate CanEndAs(c: Cipher, src: Source, o: Outcome) {
    exists s :: EndsAs(c, src, s, o)
  }

  ghost predicate EndsAs(c: Cipher, src: Source, s: State, o: Outcome) {
    && Reachable(c, src, s) && s.result == Some(o.ok) && s.cancelled == o.cancelled && s.failed == o.failed
    && s.created == o.created && s.file == o.content
  }

  /** What a nil result promises of the file: unless the local file failed all full blocks
      are there, and unless the download was cancelled everything is. */
  ghost predicate Promised(c: Cipher, src: Source, o: Outcome) {
    !o.failed ==> && o.created
                  && FullContent(c, WholeBody(src)) <= o.content <= Decode(c, Deliverable(src))
                  && (!o.cancelled ==> o.content == Decode(c, Deliverable(src)))
  }

  lemma NilKeepsPromise(c: Cipher, src: Source, o: Outcome)
    requires src.end != Ok && CanEndAs(c, src, o) && o.ok
    ensures Promised(c, src, o)
  {
    var s :| EndsAs(c, src, s, o);
    if !o.failed {
      NilMissesAtMostTheTail(c, src, s);
      ReachableInv(c, src, s);
      if !o.cancelled {
        FaultFreeDownload(c, src, s);
      }
    }
  }

  // ---------------------------------------------------------------- trees and disks

  function Lookup(tree: Tree, rel: Path): Option<Tree>
    decreases rel
  {
    if rel == [] then Some(tree)
    else if tree.Leaf? then None
    else LookupIn(tree.entries, rel)
  }

  function LookupIn(entries: seq<Entry>, rel: Path): Option<Tree>
    requires rel != []
    decreases rel, entries
  {
    if entries == [] then None
    else if entries[0].name == rel[0] then Lookup(entries[0].tree, rel[1..])
    else LookupIn(entries[1..], rel)
  }

  /** Sibling names are distinct and every source ends, throughout the tree. */
  ghost predicate WellFormed(tree: Tree) {
    match tree
    case Leaf(src) => src.end != Ok
    case Branch(entries) =>
      && (forall i, j :: 0 <= i < j < |entries| ==> entries[i].name != entries[j].name)
      && (forall e :: e in entries ==> WellFormed(e.tree))
  }

  /** A directory that is not empty cannot be replaced by a file. */
  predicate Blocked(disk: Disk, path: Path) {
    path in disk && disk[path].Dir? && exists q :: q in disk && path < q
  }

  /** The outcomes are such as downloads can have on this disk: each ends some run of its
      source, and no file is created where a directory with entries stands. */
  ghost predicate Possible(c: Cipher, disk: Disk, tree: Tree, path: Path, outcome: Path -> Outcome) {
    match tree
    case Leaf(src) => CanEndAs(c, src, outcome(path)) && (Blocked(disk, path) ==> !outcome(path).created)
    case Branch(entries) => forall e :: e in entries ==> Possible(c, disk, e.tree, path + [e.name], outcome)
  }

  /** Every file download returns nil, and no file stands where the tree has a directory. */
  ghost predicate Succeeds(disk: Disk, tree: Tree, path: Path, outcome: Path -> Outcome) {
    match tree
    case Leaf(_) => outcome(path).ok
    case Branch(entries) =>
      && (path in disk ==> disk[path] == Dir)
      && forall e :: e in entries ==> Succeeds(disk, e.tree, path + [e.name], outcome)
  }

  /** No file download was cancelled or met an error of the local file. */
  predicate NoneDisturbed(tree: Tree, path: Path, outcome: Path -> Outcome) {
    match tree
    case Leaf(_) => !outcome(path).cancelled && !outcome(path).failed
    case Branch(entries) => forall e :: e in entries ==> NoneDisturbed(e.tree, path + [e.name], outcome)
  }

  /** The disk has every directory of the tree, and every file whose download did not meet an
      error of the local file, with at least what its full blocks open to. */
  ghost predicate Filled(c: Cipher, disk: Disk, tree: Tree, path: Path, outcome: Path -> Outcome) {
    match tree
    case Leaf(src) =>
      !outcome(path).failed ==> path in disk && disk[path] == File(outcome(path).content) && Promised(c, src, outcome(path))
    case Branch(entries) =>
      && path in disk && disk[path] == Dir
      && forall e :: e in entries ==> Filled(c, disk, e.tree, path + [e.name], outcome)
  }

  /** The disk shows the tree at `path`: directories as directories, every file with the
      decoding of its content. */
  ghost predicate Mirrors(c: Cipher, disk: Disk, tree: Tree, path: Path) {
    && path in disk
    && match tree
       case Leaf(src) => disk[path] == File(Decode(c, Deliverable(src)))
       case Branch(entries) =>
         disk[path] == Dir && forall e :: e in entries ==> Mirrors(c, disk, e.tree, path + [e.name])
  }

  /** The same said without recursion: whatever the tree has at a relative path, the
      disk has at the corresponding absolute one. */
  lemma {:induction false} MirrorAt(c: Cipher, disk: Disk, tree: Tree, path: Path, rel: Path)
    requires Mirrors(c, disk, tree, path) && Lookup(tree, rel).Some?
    ensures path + rel in disk
    ensures match Lookup(tree, rel).value
            case Leaf(src) => disk[path + rel] == File(Decode(c, Deliverable(src)))
            case Branch(_) => disk[path + rel] == Dir
    decreases |rel|
  {
    if rel == [] {
      assert path + rel == path;
    } else {
      var e := FoundEntry(tree.entries, rel);
      MirrorAt(c, disk, e.tree, path + [e.name], rel[1..]);
      assert path + [e.name] + rel[1..] == path + rel;
    }
  }

  /** Every path down the tree is found: nothing at the root but the tree itself, and
      below an entry what is in the entry. */
  lemma LookupChild(tree: Tree, e: Entry, rel: Path)
    requires WellFormed(tree) && tree.Branch? && e in tree.entries
    ensures Lookup(tree, []) == Some(tree) && Lookup(tree, [e.name] + rel) == Lookup(e.tree, rel)
  {
    var i :| 0 <= i < |tree.entries| && tree.entries[i] == e;
    FindsEntry(tree.entries, i, [e.name] + rel);
    assert ([e.name] + rel)[1..] == rel;
  }

  lemma {:induction false} FindsEntry(entries: seq<Entry>, i: nat, rel: Path)
    requires i < |entries| && rel != [] && rel[0] == entries[i].name
    requires forall j, k :: 0 <= j < k < |entries| ==> entries[j].name != entries[k].name
    ensures LookupIn(entries, rel) == Lookup(entries[i].tree, rel[1..])
    decreases i
  {
    if i > 0 {
      FindsEntry(entries[1..], i - 1, rel);
    }
  }

  lemma {:induction false} FoundEntry(entries: seq<Entry>, rel: Path) returns (e: Entry)
    requires rel != [] && LookupIn(entries, rel).Some?
    ensures e in entries && e.name == rel[0] && Lookup(e.tree, rel[1..]) == LookupIn(entries, rel)
    decreases |entries|
  {
    e := entries[0];
    if e.name != rel[0] {
      e := FoundEntry(entries[1..], rel);
    }
  }

  ghost predicate SameAt(disk: Disk, disk': Disk, q: Path) {
    (q in disk <==> q in disk') && (q in disk ==> disk[q] == disk'[q])
  }

  /** Nothing changed at or below `path`. */
  ghost predicate SameWithin(disk: Disk, disk': Disk, path: Path) {
    forall q :: path <= q ==> SameAt(disk, disk', q)
  }

  /** Nothing changed except strictly below `path`. */
  ghost predicate OnlyBelow(disk: Disk, disk': Disk, path: Path) {
    forall q :: !(path < q) ==> SameAt(disk, disk', q)
  }

  /** Nothing changed except at or below `path`. */
  ghost predicate OnlyWithin(disk: Disk, disk': Disk, path: Path) {
    forall q :: !(path <= q) ==> SameAt(disk, disk', q)
  }

  /** What is filled without a disturbance mirrors the tree. */
  lemma {:induction false} FilledMirrors(c: Cipher, disk: Disk, tree: Tree, path: Path, outcome: Path -> Outcome)
    requires Filled(c, disk, tree, path, outcome) && NoneDisturbed(tree, path, outcome)
    ensures Mirrors(c, disk, tree, path)
    decreases tree
  {
    if tree.Branch? {
      forall e | e in tree.entries ensures Mirrors(c, disk, e.tree, path + [e.name]) {
        FilledMirrors(c, disk, e.tree, path + [e.name], outcome);
      }
    }
  }

  lemma {:induction false} FilledFrame(c: Cipher, disk: Disk, disk': Disk, tree: Tree, path: Path, outcome: Path -> Outcome)
    requires Filled(c, disk, tree, path, outcome) && SameWithin(disk, disk', path)
    ensures Filled(c, disk', tree, path, outcome)
    decreases tree
  {
    assert SameAt(disk, disk', path);
    if tree.Branch? {
      forall e | e in tree.entries ensures Filled(c, disk', e.tree, path + [e.name], outcome) {
        FilledFrame(c, disk, disk', e.tree, path + [e.name], outcome);
      }
    }
  }

  lemma {:induction false} PossibleFrame(c: Cipher, disk: Disk, disk': Disk, tree: Tree, path: Path, outcome: Path -> Outcome)
    requires Possible(c, disk, tree, path, outcome) && SameWithin(disk, disk', path)
    ensures Possible(c, disk', tree, path, outcome)
    decreases tree
  {
    assert SameAt(disk, disk', path);
    if tree.Leaf? {
      assert forall q :: q in disk' && path < q ==> path <= q && SameAt(disk, disk', q);
    } else {
      forall e | e in tree.entries ensures Possible(c, disk', e.tree, path + [e.name], outcome) {
        PossibleFrame(c, disk, disk', e.tree, path + [e.name], outcome);
      }
    }
  }

  lemma {:induction false} SucceedsFrame(disk: Disk, disk': Disk, tree: Tree, path: Path, outcome: Path -> Outcome)
    requires SameWithin(disk, disk', path)
    ensures Succeeds(disk, tree, path, outcome) <==> Succeeds(disk', tree, path, outcome)
    decreases tree
  {
    assert SameAt(disk, disk', path);
    if tree.Branch? {
      forall e | e in tree.entries
        ensures Succeeds(disk, e.tree, path + [e.name], outcome) <==> Succeeds(disk', e.tree, path + [e.name], outcome)
      {
        SucceedsFrame(disk, disk', e.tree, path + [e.name], outcome);
      }
    }
  }

  lemma StillSame(before: Disk, start: Disk, now: Disk, path: Path)
    requires SameWithin(before, start, path) && SameWithin(start, now, path)
    ensures SameWithin(before, now, path)
  {
    forall q | path <= q ensures SameAt(before, now, q) {
      assert SameAt(before, start, q) && SameAt(start, now, q);
    }
  }

  /** Siblings live in disjoint parts of the disk. */
  lemma SiblingsApart(disk: Disk, disk': Disk, path: Path, changed: string, other: string)
    requires OnlyWithin(disk, disk', path + [changed]) && changed != other
    ensures SameWithin(disk, disk', path + [other])
  {
    forall q | path + [other] <= q ensures SameAt(disk, disk', q) {
      assert q[|path|] == other;
      assert (path + [changed])[|path|] == changed;
    }
  }

  lemma PrefixOfChild(path: Path, name: string, q: Path)
    ensures path + [name] <= q ==> path < q
  {
    assert (path + [name])[..|path|] == path;
  }

  lemma StillBelow(before: Disk, start: Disk, now: Disk, path: Path, name: string)
    requires OnlyBelow(before, start, path) && OnlyWithin(start, now, path + [name])
    ensures OnlyBelow(before, now, path)
  {
    forall q | !(path < q) ensures SameAt(before, now, q) {
      assert !(path + [name] <= q) by {
        PrefixOfChild(path, name, q);
      }
      assert SameAt(before, start, q) && SameAt(start, now, q);
    }
  }

  /** First the node itself, then what is below it. */
  lemma StillWithin(before: Disk, made: Disk, now: Disk, target: Path)
    requires forall q :: q != target ==> SameAt(before, made, q)
    requires OnlyBelow(made, now, target)
    ensures OnlyWithin(before, now, target)
  {
    forall q | !(target <= q) ensures SameAt(before, now, q) {
      assert SameAt(before, made, q) && SameAt(made, now, q);
    }
  }

  /** What is below a new directory is still what was there. */
  lemma MadeDirectory(c: Cipher, before: Disk, made: Disk, tree: Tree, path: Path, outcome: Path -> Outcome)
    requires tree.Branch? && path in made && made[path] == Dir
    requires forall q :: q != path ==> SameAt(before, made, q)
    ensures Possible(c, before, tree, path, outcome) ==> Possible(c, made, tree, path, outcome)
    ensures Succeeds(before, tree, path, outcome) <==>
              (path in before ==> before[path] == Dir) && Succeeds(made, tree, path, outcome)
  {
    forall e | e in tree.entries
      ensures Possible(c, before, e.tree, path + [e.name], outcome) ==> Possible(c, made, e.tree, path + [e.name], outcome)
      ensures Succeeds(before, e.tree, path + [e.name], outcome) <==> Succeeds(made, e.tree, path + [e.name], outcome)
    {
      var p := path + [e.name];
      SucceedsFrame(before, made, e.tree, p, outcome);
      if Possible(c, before, e.tree, p, outcome) { PossibleFrame(c, before, made, e.tree, p, outcome); }
    }
  }

  // ---------------------------------------------------------------- the download

  class LocalDisk {
    var nodes: Disk
    ghost var faults: nat  // failed directory operations and unreachable entries

    /** Creating a directory whose parent exists; it may be there already. */
    method MkdirAll(path: Path) returns (ok: bool)
      modifies this
      ensures forall q :: q != path ==> SameAt(old(nodes), nodes, q)
      ensures ok ==> path in nodes && nodes[path] == Dir
      ensures !ok ==> nodes == old(nodes)
      ensures old(faults) <= faults
      ensures ok <==> faults == old(faults) && (path in old(nodes) ==> old(nodes)[path] == Dir)
    {
      var fault := *;
      if fault {
        faults := faults + 1;
        return false;
      }
      ok := path in nodes ==> nodes[path] == Dir;
      if ok {
        nodes := nodes[path := Dir];
      }
    }

    /** downloadFile seen from the disk: what stands at the path goes first, even an empty
        directory; then the new file appears if it can be created.  An error of the
        removal is ignored: it shows only if the file is not created either. */
    method SaveFile(path: Path, o: Outcome) returns (ok: bool)
      modifies this`nodes
      ensures forall q :: q != path ==> SameAt(old(nodes), nodes, q)
      ensures ok == o.ok
      ensures Blocked(old(nodes), path) ==> nodes == old(nodes)
      ensures !Blocked(old(nodes), path) && o.created ==> path in nodes && nodes[path] == File(o.content)
      ensures !Blocked(old(nodes), path) && !o.created ==> path !in nodes || nodes == old(nodes)
    {
      var removed := *;
      if !Blocked(nodes, path) {
        if removed || o.created {
          nodes := nodes - {path};
        }
        if o.created {
          nodes := nodes[path := File(o.content)];
        }
      }
      ok := o.ok;
    }

    /**
     downloadFolderFromIpfs.  Nothing outside the folder is touched, whatever fails.  It
     returns nil exactly if the network and the directories did not fail, every file
     download returned nil and no file stands where the tree has a directory.  The disk
     then has all directories, and all files whose local file did not fail, with at least
     what their full blocks open to; if no download was disturbed it mirrors the tree.
     */
    method DownloadFolder(c: Cipher, tree: Tree, path: Path, outcome: Path -> Outcome) returns (ok: bool)
      requires tree.Branch? && WellFormed(tree) && Possible(c, nodes, tree, path, outcome)
      requires path in nodes && nodes[path] == Dir
      modifies this
      ensures OnlyBelow(old(nodes), nodes, path)
      ensures old(faults) <= faults
      ensures ok <==> faults == old(faults) && Succeeds(old(nodes), tree, path, outcome)
      ensures ok ==> Filled(c, nodes, tree, path, outcome)
      ensures ok && NoneDisturbed(tree, path, outcome) ==> Mirrors(c, nodes, tree, path)
      decreases tree
    {
      ghost var before := nodes;
      for i := 0 to |tree.entries|
        invariant OnlyBelow(before, nodes, path) && faults == old(faults)
        invariant forall k :: 0 <= k < i ==> Succeeds(before, tree.entries[k].tree, path + [tree.entries[k].name], outcome)
        invariant forall k :: 0 <= k < i ==> Filled(c, nodes, tree.entries[k].tree, path + [tree.entries[k].name], outcome)
        invariant forall k :: i <= k < |tree.entries| ==> SameWithin(before, nodes, path + [tree.entries[k].name])
      {
        ghost var start := nodes;
        var e := tree.entries[i];
        assert SameAt(before, nodes, path);
        SucceedsFrame(before, start, e.tree, path + [e.name], outcome);
        PossibleFrame(c, before, start, e.tree, path + [e.name], outcome);
        ok := DownloadEntry(c, e, path, outcome);
        StillBelow(before, start, nodes, path, e.name);
        if !ok { return; }
        forall k | 0 <= k < |tree.entries| && k != i
          ensures k < i ==> Filled(c, nodes, tree.entries[k].tree, path + [tree.entries[k].name], outcome)
          ensures k > i ==> SameWithin(before, nodes, path + [tree.entries[k].name])
        {
          SiblingsApart(start, nodes, path, e.name, tree.entries[k].name);
          if k < i {
            FilledFrame(c, start, nodes, tree.entries[k].tree, path + [tree.entries[k].name], outcome);
          } else {
            StillSame(before, start, nodes, path + [tree.entries[k].name]);
          }
        }
      }
      assert SameAt(before, nodes, path);
      ok := true;
      if NoneDisturbed(tree, path, outcome) {
        FilledMirrors(c, nodes, tree, path, outcome);
      }
    }

    /** The callback for one directory entry. */
    method DownloadEntry(c: Cipher, e: Entry, path: Path, outcome: Path -> Outcome) returns (ok: bool)
      requires WellFormed(e.tree) && Possible(c, nodes, e.tree, path + [e.name], outcome)
      modifies this
      ensures OnlyWithin(old(nodes), nodes, path + [e.name])
      ensures old(faults) <= faults
      ensures ok <==> faults == old(faults) && Succeeds(old(nodes), e.tree, path + [e.name], outcome)
      ensures ok ==> Filled(c, nodes, e.tree, path + [e.name], outcome)
      decreases e
    {
      var reachable := *;  // resolving the entry on the network may fail
      if !reachable {
        faults := faults + 1;
        return false;
      }
      var target := path + [e.name];
      ghost var before := nodes;
      match e.tree
      case Leaf(src) =>
        ok := SaveFile(target, outcome(target));
        if ok {
          NilKeepsPromise(c, src, outcome(target));
        }
      case Branch(_) =>
        ok := MkdirAll(target);
        if ok {
          ghost var made := nodes;
          MadeDirectory(c, before, made, e.tree, target, outcome);
          ok := DownloadFolder(c, e.tree, target, outcome);
          StillWithin(before, made, nodes, target);
        }
    }
  }
}
