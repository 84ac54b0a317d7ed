/** The rclone cache directories that the connector creates at a mount and removes after an unmount
    (connector/main.go:445-450, 463-470; connector/utils.go:77-94). */
module CacheTree {

  /** A path below the cache directory, as the sequence of its components. */
  type Path = seq<string>

  /** How far a mount gets with its directory: not to the point of creating it, to the volume's
      directory only, or all the way. */
  datatype Reach = NotReached | Halfway | Created

  /** `volume` holds the components that the volume id adds to the cache directory when the path is
      cleaned: just one, unless the id has a slash or is "", "." or "..". */
  datatype Cmd = Mount(volume: Path, path: string, reach: Reach) | Unmount(volume: Path, path: string)

  /** The digest that names a mount path's directory. */
  type Digest = string -> string

  function Leaf(h: Digest, volume: Path, path: string): Path { volume + [h(path)] }

  function RemoveAll(dirs: set<Path>, path: Path): set<Path> { set d | d in dirs && !(path <= d) :: d }

  predicate Empty(dirs: set<Path>, path: Path) { forall d :: d in dirs ==> !(path < d) }

  /** os.Remove: a directory goes only when it is empty. */
  function RemoveEmpty(dirs: set<Path>, path: Path): set<Path> { if Empty(dirs, path) then dirs - {path} else dirs }

  function Effect(h: Digest, dirs: set<Path>, c: Cmd): set<Path> {
    match c
    case Mount(v, p, NotReached) => dirs
    case Mount(v, p, Halfway) => dirs + {v}
    case Mount(v, p, Created) => dirs + {v, Leaf(h, v, p)}
    case Unmount(v, p) => RemoveEmpty(RemoveAll(dirs, Leaf(h, v, p)), v)
  }

  /** The connector's cache directory. */
  class CacheDirectory {
    var dirs: set<Path>

    constructor ()
      ensures dirs == {}
    {
      dirs := {};
    }

    /** Parents exist in a file system. */
    ghost predicate Rooted(path: Path)
      reads this
    {
      path != [] && (path in dirs ==> path[..|path| - 1] in dirs)
    }

    /** The directory part of handling a mount command. */
    method PrepareMount(h: Digest, volume: Path, path: string, reach: Reach)
      requires Rooted(Leaf(h, volume, path))
      modifies this
      ensures dirs == Effect(h, old(dirs), Mount(volume, path, reach))
    {
      if reach.NotReached? {
        return;
      }
      var leaf := Leaf(h, volume, path);
      assert leaf[..|leaf| - 1] == volume;
      if leaf !in dirs {
        dirs := dirs + {volume};
        if reach.Created? {
          dirs := dirs + {leaf};
        }
      }
    }

    /** The directory part of handling an unmount command. */
    method CleanAfterUnmount(h: Digest, volume: Path, path: string)
      modifies this
      ensures dirs == Effect(h, old(dirs), Unmount(volume, path))
    {
      var leaf := Leaf(h, volume, path);
      dirs := RemoveAll(dirs, leaf);
      if Empty(dirs, volume) {
        dirs := dirs - {volume};
      }
    }
  }

  /** The directories after a history of commands. */
  ghost function Tree(h: Digest, history: seq<Cmd>): set<Path> {
    if history == [] then {}
    else Effect(h, Tree(h, history[..|history| - 1]), history[|history| - 1])
  }

  // -- what the history says ---------------------------------------------------------------------

  /** The last command on this volume and path that got to its directory was a mount. */
  ghost predicate Mounted(history: seq<Cmd>, v: Path, p: string) {
    history != [] &&
    var n := |history| - 1;
    match history[n]
    case Mount(w, q, reach) => (w == v && q == p && reach == Created) || Mounted(history[..n], v, p)
    case Unmount(w, q) => !(w == v && q == p) && Mounted(history[..n], v, p)
  }

  /** Since the last unmount of this volume, a mount stopped halfway. */
  ghost predicate Stray(history: seq<Cmd>, v: Path) {
    history != [] &&
    var n := |history| - 1;
    match history[n]
    case Mount(w, q, reach) => (w == v && reach == Halfway) || Stray(history[..n], v)
    case Unmount(w, q) => w != v && Stray(history[..n], v)
  }

  ghost predicate HasMount(history: seq<Cmd>, v: Path) { exists p :: Mounted(history, v, p) }

  /** Every volume id is one path component: it has no slash, and is not "", "." or "..". */
  ghost predicate OneComponent(history: seq<Cmd>) { forall i :: 0 <= i < |history| ==> |history[i].volume| == 1 }

  ghost predicate Injective(h: Digest) { forall p, q :: h(p) == h(q) ==> p == q }

  // -- the tree follows the history --------------------------------------------------------------

  ghost predicate Shaped(h: Digest, dirs: set<Path>) {
    forall d :: d in dirs ==> |d| == 1 || (|d| == 2 && exists p :: d == Leaf(h, d[..1], p))
  }

  /** A leaf is there exactly when its last command was a mount. */
  ghost predicate LeavesFollow(h: Digest, history: seq<Cmd>, dirs: set<Path>) {
    forall v: Path, p: string :: |v| == 1 ==> (Leaf(h, v, p) in dirs <==> Mounted(history, v, p))
  }

  /** A volume's directory is there exactly when it has a leaf, or a mount stopped halfway. */
  ghost predicate VolumesFollow(history: seq<Cmd>, dirs: set<Path>) {
    forall v: Path :: |v| == 1 ==> (v in dirs <==> HasMount(history, v) || Stray(history, v))
  }

  lemma LeafInjective(h: Digest, v: Path, p: string, w: Path, q: string)
    requires Injective(h) && |v| == |w|
    ensures Leaf(h, v, p) <= Leaf(h, w, q) <==> v == w && p == q
  {
    if Leaf(h, v, p) <= Leaf(h, w, q) {
      assert Leaf(h, v, p) == Leaf(h, w, q);
      assert Leaf(h, v, p)[|v|] == h(p) && Leaf(h, w, q)[|w|] == h(q);
      assert v == Leaf(h, v, p)[..|v|] && w == Leaf(h, w, q)[..|w|];
    }
  }

  lemma Latest(history: seq<Cmd>, c: Cmd, v: Path, p: string)
    ensures Mounted(history + [c], v, p) ==
            if c.Mount? then (c.volume == v && c.path == p && c.reach == Created) || Mounted(history, v, p)
            else !(c.volume == v && c.path == p) && Mounted(history, v, p)
    ensures Stray(history + [c], v) ==
            if c.Mount? then (c.volume == v && c.reach == Halfway) || Stray(history, v)
            else c.volume != v && Stray(history, v)
  {
    assert (history + [c])[..|history|] == history;
  }

  lemma ShapeStep(h: Digest, dirs: set<Path>, c: Cmd)
    requires Shaped(h, dirs) && |c.volume| == 1
    ensures Shaped(h, Effect(h, dirs, c))
  {
    if c.Mount? {
      var leaf := Leaf(h, c.volume, c.path);
      assert leaf[..1] == c.volume && |leaf| == 2;
    }
  }

  lemma LeafStep(h: Digest, history: seq<Cmd>, dirs: set<Path>, c: Cmd, v: Path, p: string)
    requires Injective(h) && LeavesFollow(h, history, dirs) && |c.volume| == |v| == 1
    ensures Leaf(h, v, p) in Effect(h, dirs, c) <==> Mounted(history + [c], v, p)
  {
    Latest(history, c, v, p);
    LeafInjective(h, c.volume, c.path, v, p);
    assert Leaf(h, v, p) in dirs <==> Mounted(history, v, p);
    assert |Leaf(h, v, p)| == 2;
  }

  lemma MountStep(h: Digest, history: seq<Cmd>, dirs: set<Path>, c: Cmd, v: Path)
    requires VolumesFollow(history, dirs) && c.Mount? && |c.volume| == |v| == 1
    ensures v in Effect(h, dirs, c) <==> HasMount(history + [c], v) || Stray(history + [c], v)
  {
    assert |Leaf(h, c.volume, c.path)| == 2;
    Latest(history, c, v, c.path);
    forall p
      ensures Mounted(history + [c], v, p) ==
              ((c.volume == v && c.path == p && c.reach == Created) || Mounted(history, v, p))
    {
      Latest(history, c, v, p);
    }
    if HasMount(history, v) {
      var p :| Mounted(history, v, p);
      assert Mounted(history + [c], v, p);
    }
  }

  lemma UnmountOther(h: Digest, history: seq<Cmd>, dirs: set<Path>, c: Cmd, v: Path)
    requires VolumesFollow(history, dirs) && c.Unmount? && |c.volume| == |v| == 1 && c.volume != v
    ensures v in Effect(h, dirs, c) <==> HasMount(history + [c], v) || Stray(history + [c], v)
  {
    Latest(history, c, v, "");
    forall p ensures Mounted(history + [c], v, p) == Mounted(history, v, p) {
      Latest(history, c, v, p);
    }
    assert HasMount(history + [c], v) == HasMount(history, v);
    assert !(Leaf(h, c.volume, c.path) <= v);
  }

  lemma UnmountOwn(h: Digest, history: seq<Cmd>, dirs: set<Path>, c: Cmd)
    requires Injective(h) && Shaped(h, dirs) && LeavesFollow(h, history, dirs) && VolumesFollow(history, dirs)
    requires c.Unmount? && |c.volume| == 1
    ensures c.volume in Effect(h, dirs, c) <==> HasMount(history + [c], c.volume) || Stray(history + [c], c.volume)
  {
    var v, rest := c.volume, RemoveAll(dirs, Leaf(h, c.volume, c.path));
    Latest(history, c, v, c.path);
    if HasMount(history + [c], v) {
      var p :| Mounted(history + [c], v, p);
      Latest(history, c, v, p);
      LeafStep(h, history, dirs, c, v, p);
      assert Leaf(h, v, p) in rest && v < Leaf(h, v, p);
      assert HasMount(history, v) && v in rest;
    } else if !Empty(rest, v) {
      var d :| d in rest && v < d;
      assert d[..1] == v;
      var p :| d == Leaf(h, v, p);
      LeafStep(h, history, dirs, c, v, p);
      assert false;
    }
  }

  lemma VolumeStep(h: Digest, history: seq<Cmd>, dirs: set<Path>, c: Cmd, v: Path)
    requires Injective(h) && Shaped(h, dirs) && LeavesFollow(h, history, dirs) && VolumesFollow(history, dirs)
    requires |c.volume| == |v| == 1
    ensures v in Effect(h, dirs, c) <==> HasMount(history + [c], v) || Stray(history + [c], v)
  {
    if c.Mount? {
      MountStep(h, history, dirs, c, v);
    } else if c.volume != v {
      UnmountOther(h, history, dirs, c, v);
    } else {
      UnmountOwn(h, history, dirs, c);
    }
  }

  /** For every history of commands on volume ids that are one path component: a leaf exists exactly
      when the last command that got to it was a mount, and a volume's directory exactly when it
      still has a leaf or a mount stopped halfway since its last unmount. */
  lemma {:induction false} TreeFollowsHistory(h: Digest, history: seq<Cmd>)
    requires Injective(h) && OneComponent(history)
    ensures Shaped(h, Tree(h, history)) && LeavesFollow(h, history, Tree(h, history))
    ensures VolumesFollow(history, Tree(h, history))
  {
    if history != [] {
      var n := |history| - 1;
      var before, c := history[..n], history[n];
      assert history == before + [c] && |c.volume| == 1;
      TreeFollowsHistory(h, before);
      var dirs := Tree(h, before);
      ShapeStep(h, dirs, c);
      forall v: Path, p: string | |v| == 1 ensures Leaf(h, v, p) in Tree(h, history) <==> Mounted(history, v, p) {
        LeafStep(h, before, dirs, c, v, p);
      }
      forall v: Path | |v| == 1 ensures v in Tree(h, history) <==> HasMount(history, v) || Stray(history, v) {
        VolumeStep(h, before, dirs, c, v);
      }
    }
  }

  /** Unmounting takes away another mount's leaf exactly when that leaf lies inside the unmounted
      one, or is the unmounted volume's own directory and empty; both take a volume id that is not one
      path component. */
  lemma UnmountTakesExactly(h: Digest, dirs: set<Path>, v: Path, p: string, w: Path, q: string)
    requires Injective(h) && Leaf(h, w, q) in dirs && (v != w || p != q)
    ensures Leaf(h, w, q) !in Effect(h, dirs, Unmount(v, p)) <==>
            Leaf(h, v, p) <= w || (Leaf(h, w, q) == v && Empty(RemoveAll(dirs, Leaf(h, v, p)), v))
    ensures Leaf(h, w, q) !in Effect(h, dirs, Unmount(v, p)) ==> |v| != |w|
  {
    var leaf, other := Leaf(h, v, p), Leaf(h, w, q);
    if leaf <= other && |leaf| == |other| {
      LeafInjective(h, v, p, w, q);
    }
    if leaf <= other && |leaf| < |other| {
      assert other[..|w|] == w && leaf == other[..|leaf|] == w[..|leaf|];
    }
    if leaf <= w {
      assert leaf <= other;
    }
  }
}
