/** Publication of generated artifacts by competing generators. A directory is published by a
    rename and an archive by an exclusive link; the format that delivers both takes its archive
    back when the rename fails. Generated directories are never empty, so a rename onto an
    existing path fails. */
module Artifacts {
  import opened Wrappers

  type Path = string

  type GeneratorId = nat

  datatype Format = DirectoryFormat | ZipFormat | BothFormat

  /** What stands at a path: a generator's delivery, or something older than any generator. */
  datatype Artifact = Directory(owner: GeneratorId) | Archive(owner: GeneratorId) | Earlier(content: string) {
    predicate OwnedBy(g: GeneratorId) {
      !Earlier? && owner == g
    }
  }

  type FileTree = map<Path, Artifact>

  function ArchivePath(destination: Path): Path {
    destination + ".zip"
  }

  /** The paths a format delivers to. */
  function Paths(format: Format, destination: Path): seq<Path> {
    match format
    case DirectoryFormat => [destination]
    case ZipFormat => [ArchivePath(destination)]
    case BothFormat => [destination, ArchivePath(destination)]
  }

  /** What a generator puts at one of its paths. */
  function Delivered(g: GeneratorId, destination: Path, p: Path): Artifact {
    if p == destination then Directory(g) else Archive(g)
  }

  // ---------------------------------------------------------------------------------------
  // One generator at a time
  // ---------------------------------------------------------------------------------------

  datatype Outcome = Published(directory: Option<Path>, archive: Option<Path>) | NotPublished(leftover: bool)

  /** The part of the file system the generators share. `works` says whether a system call goes
      through when nothing stands in its way. */
  class FileSystem {
    var entries: FileTree

    constructor ()
      ensures entries == map[]
    {
      entries := map[];
    }

    method Link(g: GeneratorId, p: Path, works: bool) returns (ok: bool)
      modifies this
      ensures ok <==> works && p !in old(entries)
      ensures entries == (if ok then old(entries)[p := Archive(g)] else old(entries))
    {
      ok := works && p !in entries;
      if ok {
        entries := entries[p := Archive(g)];
      }
    }

    method Rename(g: GeneratorId, p: Path, works: bool) returns (ok: bool)
      modifies this
      ensures ok <==> works && p !in old(entries)
      ensures entries == (if ok then old(entries)[p := Directory(g)] else old(entries))
    {
      ok := works && p !in entries;
      if ok {
        entries := entries[p := Directory(g)];
      }
    }

    /** Removes whatever is at the path. */
    method Remove(p: Path, works: bool) returns (ok: bool)
      modifies this
      ensures ok <==> works && p in old(entries)
      ensures entries == (if ok then old(entries) - {p} else old(entries))
    {
      ok := works && p in entries;
      if ok {
        entries := entries - {p};
      }
    }

    method EnsureAvailable(paths: seq<Path>, stats: seq<bool>) returns (ok: bool)
      requires |stats| == |paths|
      ensures ok <==> forall i | 0 <= i < |paths| :: paths[i] !in entries && stats[i]
    {
      for i := 0 to |paths|
        invariant forall k | 0 <= k < i :: paths[k] !in entries && stats[k]
      {
        if paths[i] in entries {
          return false;
        }
        if !stats[i] {
          return false;
        }
      }
      return true;
    }

    method PublishDirectory(g: GeneratorId, destination: Path, renames: bool) returns (r: Outcome)
      modifies this
      ensures r.Published? <==> renames && destination !in old(entries)
      ensures r == (if r.Published? then Published(Some(destination), None) else NotPublished(false))
      ensures entries == (if r.Published? then old(entries)[destination := Directory(g)] else old(entries))
    {
      var ok := Rename(g, destination, renames);
      if !ok {
        return NotPublished(false);
      }
      return Published(Some(destination), None);
    }

    method PublishZIP(g: GeneratorId, destination: Path, links: bool) returns (r: Outcome)
      modifies this
      ensures r.Published? <==> links && ArchivePath(destination) !in old(entries)
      ensures r == (if r.Published? then Published(None, Some(ArchivePath(destination))) else NotPublished(false))
      ensures entries == (if r.Published? then old(entries)[ArchivePath(destination) := Archive(g)] else old(entries))
    {
      var ok := Link(g, ArchivePath(destination), links);
      if !ok {
        return NotPublished(false);
      }
      return Published(None, Some(ArchivePath(destination)));
    }

    /** All or nothing, unless the compensating removal itself fails. */
    method PublishDirectoryAndZIP(g: GeneratorId, destination: Path, links: bool, renames: bool, removes: bool) returns (r: Outcome)
      modifies this
      ensures r.Published? <==> links && renames && destination !in old(entries) && ArchivePath(destination) !in old(entries)
      ensures r.Published? ==>
        && r == Published(Some(destination), Some(ArchivePath(destination)))
        && entries == old(entries)[ArchivePath(destination) := Archive(g)][destination := Directory(g)]
      ensures r == NotPublished(false) ==> entries == old(entries)
      ensures r == NotPublished(true) <==>
        links && !removes && ArchivePath(destination) !in old(entries) && !(renames && destination !in old(entries))
      ensures r == NotPublished(true) ==> entries == old(entries)[ArchivePath(destination) := Archive(g)]
    {
      var archive := ArchivePath(destination);
      var linked := Link(g, archive, links);
      if !linked {
        return NotPublished(false);
      }
      var renamed := Rename(g, destination, renames);
      if !renamed {
        var removed := Remove(archive, removes);
        return NotPublished(!removed);
      }
      return Published(Some(destination), Some(archive));
    }

    /** The format's publisher, which takes exactly the moves of an undisturbed generator. */
    method PublishRepository(g: GeneratorId, format: Format, destination: Path, links: bool, renames: bool, removes: bool, ghost s: State)
      returns (r: Outcome)
      requires s.tree == entries && At(s, g, Ready)
      requires s.generators[g].format == format && s.generators[g].destination == destination
      modifies this
      ensures var v := Undisturbed(s, g, links, renames, removes);
        && entries == v.tree
        && v.generators[g].phase == (match r
                                     case Published(_, _) => Succeeded
                                     case NotPublished(leftover) => if leftover then FailedDirty else Failed)
      ensures r.Published? ==>
        && (r.directory.Some? <==> destination in Paths(format, destination))
        && (r.archive.Some? <==> ArchivePath(destination) in Paths(format, destination))
    {
      ArchiveIsNotDirectory(destination);
      match format {
        case DirectoryFormat => r := PublishDirectory(g, destination, renames);
        case ZipFormat => r := PublishZIP(g, destination, links);
        case BothFormat => r := PublishDirectoryAndZIP(g, destination, links, renames, removes);
      }
    }
  }

  // ---------------------------------------------------------------------------------------
  // Any number at once
  // ---------------------------------------------------------------------------------------

  /** `Checking` is between the inspections of the paths; `Linked` holds a linked archive while
      the rename is tried; `Undoing` is to take it back. */
  datatype Phase = Checking(inspected: nat) | Ready | Linked | Undoing | Succeeded | Failed | FailedDirty | Died

  datatype Generator = Generator(format: Format, destination: Path, phase: Phase) {
    function Archive(): Path { ArchivePath(destination) }
  }

  datatype State = State(tree: FileTree, generators: map<GeneratorId, Generator>)

  datatype Move =
    | Begin(g: GeneratorId, format: Format, destination: Path)
    | Inspect(g: GeneratorId, works: bool)
    | Break(g: GeneratorId)
    | LinkArchive(g: GeneratorId, works: bool)
    | RenameDirectory(g: GeneratorId, works: bool)
    | Undo(g: GeneratorId, works: bool)
    | Die(g: GeneratorId)

  predicate At(s: State, g: GeneratorId, phase: Phase) {
    g in s.generators && s.generators[g].phase == phase
  }

  predicate Allowed(s: State, m: Move) {
    match m
    case Begin(g, _, _) => g !in s.generators
    case Inspect(g, _) => g in s.generators && s.generators[g].phase.Checking?
    case Break(g) => At(s, g, Ready)
    case LinkArchive(g, _) => At(s, g, Ready) && !s.generators[g].format.DirectoryFormat?
    case RenameDirectory(g, _) =>
      if g in s.generators && s.generators[g].format.DirectoryFormat? then At(s, g, Ready) else At(s, g, Linked)
    case Undo(g, _) => At(s, g, Undoing)
    case Die(g) => g in s.generators && s.generators[g].phase !in {Succeeded, Failed, FailedDirty, Died}
  }

  function Become(s: State, g: GeneratorId, phase: Phase): State
    requires g in s.generators
  {
    s.(generators := s.generators[g := s.generators[g].(phase := phase)])
  }

  function After(s: State, m: Move): State
    requires Allowed(s, m)
  {
    match m
    case Begin(g, format, destination) => s.(generators := s.generators[g := Generator(format, destination, Checking(0))])
    case Inspect(g, works) =>
      var x := s.generators[g];
      var paths, k := Paths(x.format, x.destination), x.phase.inspected;
      if k >= |paths| then Become(s, g, Ready)
      else if paths[k] in s.tree || !works then Become(s, g, Failed)
      else Become(s, g, Checking(k + 1))
    case Break(g) => Become(s, g, Failed)
    case LinkArchive(g, works) =>
      var x := s.generators[g];
      if !works || x.Archive() in s.tree then Become(s, g, Failed)
      else Become(s.(tree := s.tree[x.Archive() := Artifact.Archive(g)]), g, if x.format.ZipFormat? then Succeeded else Linked)
    case RenameDirectory(g, works) =>
      var x := s.generators[g];
      if !works || x.destination in s.tree then Become(s, g, if x.format.DirectoryFormat? then Failed else Undoing)
      else Become(s.(tree := s.tree[x.destination := Directory(g)]), g, Succeeded)
    case Undo(g, works) =>
      var x := s.generators[g];
      if !works || x.Archive() !in s.tree then Become(s, g, FailedDirty)
      else Become(s.(tree := s.tree - {x.Archive()}), g, Failed)
    case Die(g) => Become(s, g, Died)
  }

  /** A generator's moves after its inspection, with nothing in between. */
  function Undisturbed(s: State, g: GeneratorId, links: bool, renames: bool, removes: bool): State
    requires At(s, g, Ready)
  {
    if s.generators[g].format.DirectoryFormat? then After(s, RenameDirectory(g, renames))
    else
      var linked := After(s, LinkArchive(g, links));
      if !At(linked, g, Linked) then linked
      else
        var renamed := After(linked, RenameDirectory(g, renames));
        if !At(renamed, g, Undoing) then renamed else After(renamed, Undo(g, removes))
  }

  ghost predicate Behavior(ss: seq<State>, moves: seq<Move>) {
    && |ss| == |moves| + 1
    && ss[0].generators == map[] && (forall p | p in ss[0].tree :: ss[0].tree[p].Earlier?)
    && forall i | 0 <= i < |moves| :: Allowed(ss[i], moves[i]) && ss[i + 1] == After(ss[i], moves[i])
  }

  /** What is at p is older than the race, or was put there by a generator that delivers there and
      may still be there. */
  predicate EntrySound(s: State, p: Path)
    requires p in s.tree
  {
    s.tree[p].Earlier?
    || (
      var g := s.tree[p].owner;
      && g in s.generators
      && var x := s.generators[g];
      && p in Paths(x.format, x.destination)
      && s.tree[p] == Delivered(g, x.destination, p)
      && x.phase in {Linked, Undoing, Succeeded, FailedDirty, Died}
      && (s.tree[p].Directory? ==> x.phase == Succeeded)
      && (x.phase != Succeeded ==> x.format.BothFormat?))
  }

  predicate Holds(s: State, g: GeneratorId, destination: Path, p: Path) {
    p in s.tree && s.tree[p] == Delivered(g, destination, p)
  }

  /** A generator still has what its phase says it has put in place. */
  predicate GeneratorSound(s: State, g: GeneratorId)
    requires g in s.generators
  {
    var x := s.generators[g];
    && (x.phase in {Linked, Undoing} ==> x.format.BothFormat?)
    && (x.phase in {Linked, Undoing, FailedDirty} ==> Holds(s, g, x.destination, x.Archive()))
    && (x.phase == Succeeded ==> forall p | p in Paths(x.format, x.destination) :: Holds(s, g, x.destination, p))
  }

  predicate Sound(s: State) {
    && (forall p | p in s.tree :: EntrySound(s, p))
    && (forall g | g in s.generators :: GeneratorSound(s, g))
  }

  lemma ArchiveIsNotDirectory(destination: Path)
    ensures ArchivePath(destination) != destination
  {
    assert |ArchivePath(destination)| == |destination| + 4;
  }

  /** The generator alone moved on. */
  lemma PhaseKeepsSound(s: State, v: State, g: GeneratorId)
    requires Sound(s) && v.tree == s.tree && g in v.generators && v.generators == s.generators[g := v.generators[g]]
    requires GeneratorSound(v, g)
    requires forall p | p in v.tree && v.tree[p].OwnedBy(g) :: EntrySound(v, p)
    ensures Sound(v)
  {
    forall p | p in v.tree ensures EntrySound(v, p) { assert EntrySound(s, p); }
    forall o | o in v.generators ensures GeneratorSound(v, o) {
      if o != g { assert GeneratorSound(s, o); }
    }
  }

  /** A free path was filled, or the mover's own entry was taken away. */
  lemma TreeKeepsSound(s: State, v: State, g: GeneratorId, q: Path)
    requires Sound(s) && g in v.generators && v.generators == s.generators[g := v.generators[g]]
    requires forall p | p != q :: (p in v.tree <==> p in s.tree) && (p in s.tree ==> v.tree[p] == s.tree[p])
    requires q in s.tree ==> s.tree[q].OwnedBy(g)
    requires GeneratorSound(v, g)
    requires forall p | p in v.tree && v.tree[p].OwnedBy(g) :: EntrySound(v, p)
    requires q in v.tree ==> v.tree[q].OwnedBy(g)
    ensures Sound(v)
  {
    forall p | p in v.tree ensures EntrySound(v, p) {
      if !v.tree[p].OwnedBy(g) { assert EntrySound(s, p); }
    }
    forall o | o in v.generators ensures GeneratorSound(v, o) {
      if o != g {
        assert GeneratorSound(s, o);
        var x := s.generators[o];
        forall p | Holds(s, o, x.destination, p) ensures Holds(v, o, x.destination, p) {}
      }
    }
  }

  /** What a generator owns before it has delivered anything: nothing. */
  lemma OwnsNothingYet(s: State, g: GeneratorId)
    requires Sound(s)
    requires g in s.generators ==> s.generators[g].phase.Checking? || s.generators[g].phase in {Ready, Failed}
    ensures forall p | p in s.tree :: !s.tree[p].OwnedBy(g)
  {
    forall p | p in s.tree ensures !s.tree[p].OwnedBy(g) { assert EntrySound(s, p); }
  }

  lemma EarlyMoveKeepsSound(s: State, m: Move)
    requires Sound(s) && Allowed(s, m) && (m.Begin? || m.Inspect? || m.Break?)
    ensures Sound(After(s, m))
  {
    OwnsNothingYet(s, m.g);
    hide Sound;
    PhaseKeepsSound(s, After(s, m), m.g);
  }

  lemma LinkKeepsSound(s: State, m: Move)
    requires Sound(s) && Allowed(s, m) && m.LinkArchive?
    ensures Sound(After(s, m))
  {
    OwnsNothingYet(s, m.g);
    var v, x := After(s, m), s.generators[m.g];
    ArchiveIsNotDirectory(x.destination);
    hide Sound, ArchivePath;
    if v.tree == s.tree {
      PhaseKeepsSound(s, v, m.g);
    } else {
      TreeKeepsSound(s, v, m.g, x.Archive());
    }
  }

  lemma RenameKeepsSound(s: State, m: Move)
    requires Sound(s) && Allowed(s, m) && m.RenameDirectory?
    ensures Sound(After(s, m))
  {
    var v, x := After(s, m), s.generators[m.g];
    ArchiveIsNotDirectory(x.destination);
    assert GeneratorSound(s, m.g);
    if x.format.DirectoryFormat? { OwnsNothingYet(s, m.g); }
    forall p | p in s.tree && s.tree[p].OwnedBy(m.g) ensures p == x.Archive() && s.tree[p] == Artifact.Archive(m.g) {
      assert EntrySound(s, p);
    }
    hide Sound, ArchivePath;
    if v.tree == s.tree {
      PhaseKeepsSound(s, v, m.g);
    } else {
      TreeKeepsSound(s, v, m.g, x.destination);
    }
  }

  lemma UndoKeepsSound(s: State, m: Move)
    requires Sound(s) && Allowed(s, m) && m.Undo?
    ensures Sound(After(s, m))
  {
    var v, x := After(s, m), s.generators[m.g];
    assert GeneratorSound(s, m.g);
    ArchiveIsNotDirectory(x.destination);
    forall p | p in s.tree && s.tree[p].OwnedBy(m.g) ensures p == x.Archive() && s.tree[p] == Artifact.Archive(m.g) {
      assert EntrySound(s, p);
    }
    hide Sound, ArchivePath;
    if v.tree == s.tree {
      PhaseKeepsSound(s, v, m.g);
    } else {
      TreeKeepsSound(s, v, m.g, x.Archive());
    }
  }

  lemma DieKeepsSound(s: State, m: Move)
    requires Sound(s) && Allowed(s, m) && m.Die?
    ensures Sound(After(s, m))
  {
    forall p | p in s.tree ensures EntrySound(After(s, m), p) { assert EntrySound(s, p); }
    PhaseKeepsSound(s, After(s, m), m.g);
  }

  lemma MoveKeepsSound(s: State, m: Move)
    requires Sound(s) && Allowed(s, m)
    ensures Sound(After(s, m))
  {
    hide Sound, Allowed, After;
    match m
    case LinkArchive(_, _) => LinkKeepsSound(s, m);
    case RenameDirectory(_, _) => RenameKeepsSound(s, m);
    case Undo(_, _) => UndoKeepsSound(s, m);
    case Die(_) => DieKeepsSound(s, m);
    case _ => EarlyMoveKeepsSound(s, m);
  }

  lemma {:induction false} AlwaysSound(ss: seq<State>, moves: seq<Move>, i: nat)
    requires Behavior(ss, moves) && i < |ss|
    ensures Sound(ss[i])
    decreases i
  {
    hide After, Allowed;
    if i > 0 {
      AlwaysSound(ss, moves, i - 1);
      hide Sound;
      MoveKeepsSound(ss[i - 1], moves[i - 1]);
    }
  }

  // ---------------------------------------------------------------------------------------
  // What the race guarantees
  // ---------------------------------------------------------------------------------------

  /** No move overwrites anything, and only a generator's own archive is ever removed. */
  lemma NothingIsTakenFromOthers(ss: seq<State>, moves: seq<Move>, i: nat, p: Path)
    requires Behavior(ss, moves) && i < |moves| && p in ss[i].tree
    ensures (p in ss[i + 1].tree && ss[i + 1].tree[p] == ss[i].tree[p])
         || (p !in ss[i + 1].tree && moves[i].Undo? && ss[i].tree[p] == Artifact.Archive(moves[i].g))
  {
    AlwaysSound(ss, moves, i);
    var s, m := ss[i], moves[i];
    assert Allowed(s, m) && ss[i + 1] == After(s, m);
    hide Behavior, Sound;
    if m.Undo? { UndoTakesItsOwn(s, m); }
  }

  lemma UndoTakesItsOwn(s: State, m: Move)
    requires Sound(s) && Allowed(s, m) && m.Undo?
    ensures s.generators[m.g].Archive() in s.tree && s.tree[s.generators[m.g].Archive()] == Artifact.Archive(m.g)
  {
    assert GeneratorSound(s, m.g);
    ArchiveIsNotDirectory(s.generators[m.g].destination);
  }

  /** A success is for good, and so is what it delivered. */
  lemma {:induction false} SuccessLasts(ss: seq<State>, moves: seq<Move>, i: nat, j: nat, g: GeneratorId)
    requires Behavior(ss, moves) && i <= j < |ss| && At(ss[i], g, Succeeded)
    ensures At(ss[j], g, Succeeded) && ss[j].generators[g] == ss[i].generators[g]
    decreases j
  {
    if i < j { SuccessLasts(ss, moves, i, j - 1, g); }
  }

  /** No path ever has two successful owners, however the generators race and wherever they
      deliver to. */
  lemma OneSuccessfulOwner(ss: seq<State>, moves: seq<Move>, i: nat, j: nat, g: GeneratorId, h: GeneratorId, p: Path)
    requires Behavior(ss, moves) && i <= j < |ss|
    requires At(ss[i], g, Succeeded) && p in Paths(ss[i].generators[g].format, ss[i].generators[g].destination)
    requires At(ss[j], h, Succeeded) && p in Paths(ss[j].generators[h].format, ss[j].generators[h].destination)
    ensures g == h
  {
    SuccessLasts(ss, moves, i, j, g);
    AlwaysSound(ss, moves, j);
    assert GeneratorSound(ss[j], g) && GeneratorSound(ss[j], h);
    assert Holds(ss[j], g, ss[j].generators[g].destination, p) && Holds(ss[j], h, ss[j].generators[h].destination, p);
  }

  /** A successful delivery of both has its directory and its archive in place, from the one
      generator, from then on. */
  lemma BothComeTogether(ss: seq<State>, moves: seq<Move>, i: nat, j: nat, g: GeneratorId)
    requires Behavior(ss, moves) && i <= j < |ss|
    requires At(ss[i], g, Succeeded) && ss[i].generators[g].format.BothFormat?
    ensures var d := ss[i].generators[g].destination;
      && d in ss[j].tree && ss[j].tree[d] == Directory(g)
      && ArchivePath(d) in ss[j].tree && ss[j].tree[ArchivePath(d)] == Artifact.Archive(g)
  {
    SuccessLasts(ss, moves, i, j, g);
    AlwaysSound(ss, moves, j);
    assert GeneratorSound(ss[j], g);
    var d := ss[i].generators[g].destination;
    ArchiveIsNotDirectory(d);
    assert Holds(ss[j], g, d, d) && Holds(ss[j], g, d, ArchivePath(d));
  }

  /** A failure leaves nothing of its generator behind, except an archive whose removal failed. A
      generator that dies leaves at most its archive, and that only if it was to deliver both. */
  lemma FailureLeavesNothing(ss: seq<State>, moves: seq<Move>, i: nat, g: GeneratorId)
    requires Behavior(ss, moves) && i < |ss| && g in ss[i].generators
    ensures ss[i].generators[g].phase == Failed ==> forall p | p in ss[i].tree :: !ss[i].tree[p].OwnedBy(g)
    ensures ss[i].generators[g].phase in {FailedDirty, Died} ==>
      forall p | p in ss[i].tree && ss[i].tree[p].OwnedBy(g) ::
        p == ss[i].generators[g].Archive() && ss[i].generators[g].format.BothFormat?
  {
    AlwaysSound(ss, moves, i);
    if ss[i].generators[g].phase == Failed { OwnsNothingYet(ss[i], g); }
    forall p | p in ss[i].tree && ss[i].tree[p].OwnedBy(g) && ss[i].generators[g].phase in {FailedDirty, Died}
      ensures p == ss[i].generators[g].Archive() && ss[i].generators[g].format.BothFormat?
    {
      assert EntrySound(ss[i], p);
    }
  }

  /** How many of its paths a generator has found free. */
  function Inspected(x: Generator): nat {
    match x.phase
    case Checking(inspected) => if inspected <= |Paths(x.format, x.destination)| then inspected else |Paths(x.format, x.destination)|
    case Failed => 0
    case Died => 0
    case _ => |Paths(x.format, x.destination)|
  }

  lemma {:induction false} InspectionFindsEarlier(ss: seq<State>, moves: seq<Move>, i: nat, g: GeneratorId)
    requires Behavior(ss, moves) && i < |ss| && g in ss[i].generators
    ensures var x := ss[i].generators[g];
      forall k | 0 <= k < Inspected(x) :: Paths(x.format, x.destination)[k] !in ss[0].tree
    decreases i
  {
    if i > 0 {
      assert Allowed(ss[i - 1], moves[i - 1]) && ss[i] == After(ss[i - 1], moves[i - 1]);
      if g in ss[i - 1].generators {
        InspectionFindsEarlier(ss, moves, i - 1, g);
        InspectStep(ss, moves, i - 1, g);
      }
    }
  }

  lemma InspectStep(ss: seq<State>, moves: seq<Move>, i: nat, g: GeneratorId)
    requires Behavior(ss, moves) && i < |moves| && g in ss[i].generators
    ensures var x, y := ss[i].generators[g], ss[i + 1].generators[g];
      && g in ss[i + 1].generators && y.format == x.format && y.destination == x.destination
      && (Inspected(y) <= Inspected(x)
          || (Inspected(y) == Inspected(x) + 1 && Paths(x.format, x.destination)[Inspected(x)] !in ss[0].tree))
  {
    var s, m := ss[i], moves[i];
    assert Allowed(s, m) && ss[i + 1] == After(s, m);
    var x := s.generators[g];
    if m.Inspect? && m.g == g && Inspected(x) < |Paths(x.format, x.destination)| {
      var p := Paths(x.format, x.destination)[Inspected(x)];
      if p in ss[0].tree { EarlierEntriesStand(ss, moves, i, p, g); }
    }
  }

  /** Whoever owns anything had found all its paths free. */
  lemma {:induction false} OwnersFoundFree(ss: seq<State>, moves: seq<Move>, i: nat, p: Path, q: Path, g: GeneratorId)
    requires Behavior(ss, moves) && i < |ss| && p in ss[0].tree && q in ss[i].tree && ss[i].tree[q].OwnedBy(g)
    ensures g in ss[i].generators && p !in Paths(ss[i].generators[g].format, ss[i].generators[g].destination)
    decreases i
  {
    AlwaysSound(ss, moves, i);
    assert EntrySound(ss[i], q);
    assert i > 0;
    assert Allowed(ss[i - 1], moves[i - 1]) && ss[i] == After(ss[i - 1], moves[i - 1]);
    hide Sound, EntrySound;
    if q in ss[i - 1].tree && ss[i - 1].tree[q].OwnedBy(g) {
      OwnersFoundFree(ss, moves, i - 1, p, q, g);
      InspectStep(ss, moves, i - 1, g);
    } else {
      InspectionFindsEarlier(ss, moves, i - 1, g);
      InspectStep(ss, moves, i - 1, g);
    }
  }

  /** A generator that delivers to a path where something older stands gets no further than its
      inspection, and puts nothing anywhere. */
  lemma EarlierEntriesStop(ss: seq<State>, moves: seq<Move>, i: nat, p: Path, g: GeneratorId)
    requires Behavior(ss, moves) && i < |ss| && p in ss[0].tree && g in ss[i].generators
    requires p in Paths(ss[i].generators[g].format, ss[i].generators[g].destination)
    ensures ss[i].generators[g].phase.Checking? || ss[i].generators[g].phase in {Failed, Died}
    ensures forall q | q in ss[i].tree :: !ss[i].tree[q].OwnedBy(g)
  {
    InspectionFindsEarlier(ss, moves, i, g);
    hide Behavior;
    forall q | q in ss[i].tree ensures !ss[i].tree[q].OwnedBy(g) {
      if ss[i].tree[q].OwnedBy(g) { OwnersFoundFree(ss, moves, i, p, q, g); }
    }
  }

  /** What stood at a path before any generator began stands there at every moment of the race,
      and no generator succeeds in delivering there. */
  lemma {:induction false} EarlierEntriesStand(ss: seq<State>, moves: seq<Move>, i: nat, p: Path, g: GeneratorId)
    requires Behavior(ss, moves) && i < |ss| && p in ss[0].tree
    ensures p in ss[i].tree && ss[i].tree[p] == ss[0].tree[p]
    ensures At(ss[i], g, Succeeded) ==> p !in Paths(ss[i].generators[g].format, ss[i].generators[g].destination)
    decreases i
  {
    if i > 0 {
      EarlierEntriesStand(ss, moves, i - 1, p, g);
      NothingIsTakenFromOthers(ss, moves, i - 1, p);
    }
    AlwaysSound(ss, moves, i);
    if At(ss[i], g, Succeeded) {
      assert GeneratorSound(ss[i], g);
      assert p in Paths(ss[i].generators[g].format, ss[i].generators[g].destination) ==>
        Holds(ss[i], g, ss[i].generators[g].destination, p);
    }
  }
}
