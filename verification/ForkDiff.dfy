/** The fork page's tree of definitions and the walk that hands each patch to one of them. */
module ForkDiff {
  import opened ForkPatches

  datatype FileStat = FileStat(path: string, linesAdded: nat, linesDeleted: nat, binary: bool, patch: Patch)

  /** The part of a definition that comes from the page's YAML: its patterns and its children. */
  datatype Shape = Shape(globs: seq<string>, subs: seq<Shape>)

  /** All patterns of a definition, in the order in which the walk applies them. */
  function Patterns(s: Shape): seq<string>
    decreases s, 0
  {
    AllPatterns(s.subs) + s.globs
  }

  function AllPatterns(subs: seq<Shape>): seq<string>
    decreases subs, 1
  {
    if subs == [] then [] else AllPatterns(subs[..|subs| - 1]) + Patterns(subs[|subs| - 1])
  }

  // ---- What a successful walk leaves in a definition, told from its shape ----

  ghost function PathsOf(glob: Glob, names: set<string>, s: Shape): multiset<string>
    decreases s, 0
  {
    AllPathsOf(glob, names, s.subs) + multiset(AllHits(glob, s.globs, names))
  }

  ghost function AllPathsOf(glob: Glob, names: set<string>, subs: seq<Shape>): multiset<string>
    decreases subs, 1
  {
    if subs == [] then multiset{}
    else AllPathsOf(glob, names, subs[..|subs| - 1]) + PathsOf(glob, names, subs[|subs| - 1])
  }

  ghost function LinesOf(glob: Glob, patches: Patches, s: Shape, op: Operation): nat
    decreases s, 0
  {
    AllHitsBound(glob, s.globs, patches.Keys);
    AllLinesOf(glob, patches, s.subs, op) + SumLines(AllHits(glob, s.globs, patches.Keys), patches, op)
  }

  ghost function AllLinesOf(glob: Glob, patches: Patches, subs: seq<Shape>, op: Operation): nat
    decreases subs, 1
  {
    if subs == [] then 0
    else AllLinesOf(glob, patches, subs[..|subs| - 1], op) + LinesOf(glob, patches, subs[|subs| - 1], op)
  }

  /** When the patterns take names in turn, each name taken is in one place of the tree, and the
      tree's lines are those of the names taken. */
  lemma {:induction false} TreeIsPartition(glob: Glob, patches: Patches, s: Shape, remaining: set<string>)
    requires AllTake(glob, Patterns(s), patches.Keys, remaining)
    ensures AllHits(glob, Patterns(s), patches.Keys) <= patches.Keys
    ensures PathsOf(glob, patches.Keys, s) == multiset(AllHits(glob, Patterns(s), patches.Keys))
    ensures forall op :: LinesOf(glob, patches, s, op)
                      == SumLines(AllHits(glob, Patterns(s), patches.Keys), patches, op)
    decreases s, 0
  {
    var names := patches.Keys;
    AllTakeConcat(glob, AllPatterns(s.subs), s.globs, names, remaining);
    SubtreesArePartition(glob, patches, s.subs, remaining);
    Disjoint(glob, patches, AllPatterns(s.subs), s.globs, remaining);
  }

  lemma {:induction false} SubtreesArePartition(glob: Glob, patches: Patches, subs: seq<Shape>, remaining: set<string>)
    requires AllTake(glob, AllPatterns(subs), patches.Keys, remaining)
    ensures AllHits(glob, AllPatterns(subs), patches.Keys) <= patches.Keys
    ensures AllPathsOf(glob, patches.Keys, subs) == multiset(AllHits(glob, AllPatterns(subs), patches.Keys))
    ensures forall op :: AllLinesOf(glob, patches, subs, op)
                      == SumLines(AllHits(glob, AllPatterns(subs), patches.Keys), patches, op)
    decreases subs, 1
  {
    var names := patches.Keys;
    if subs != [] {
      var init, last := subs[..|subs| - 1], subs[|subs| - 1];
      AllTakeConcat(glob, AllPatterns(init), Patterns(last), names, remaining);
      SubtreesArePartition(glob, patches, init, remaining);
      TreeIsPartition(glob, patches, last, remaining - AllHits(glob, AllPatterns(init), names));
      Disjoint(glob, patches, AllPatterns(init), Patterns(last), remaining);
    }
  }

  lemma AllLinesStep(glob: Glob, patches: Patches, subs: seq<Shape>, n: nat, op: Operation)
    requires 0 < n <= |subs|
    ensures AllLinesOf(glob, patches, subs[..n], op)
         == AllLinesOf(glob, patches, subs[..n - 1], op) + LinesOf(glob, patches, subs[n - 1], op)
  {
    assert subs[..n][..n - 1] == subs[..n - 1];
  }

  lemma NoLines(glob: Glob, patches: Patches, subs: seq<Shape>, op: Operation)
    requires subs == []
    ensures AllLinesOf(glob, patches, subs, op) == 0
  {
  }

  lemma NoPaths(glob: Glob, names: set<string>, subs: seq<Shape>)
    requires subs == []
    ensures AllPathsOf(glob, names, subs) == multiset{}
  {
  }

  lemma AllPathsStep(glob: Glob, names: set<string>, subs: seq<Shape>, n: nat)
    requires 0 < n <= |subs|
    ensures AllPathsOf(glob, names, subs[..n])
         == AllPathsOf(glob, names, subs[..n - 1]) + PathsOf(glob, names, subs[n - 1])
  {
    assert subs[..n][..n - 1] == subs[..n - 1];
  }

  lemma AllHitsBound(glob: Glob, ps: seq<string>, names: set<string>)
    ensures AllHits(glob, ps, names) <= names
  {
    forall n ensures n in AllHits(glob, ps, names) ==> n in names {
      AllHitsAre(glob, ps, names, n);
    }
  }

  /** Patterns that take names after others take different ones. */
  lemma Disjoint(glob: Glob, patches: Patches, ps: seq<string>, qs: seq<string>, remaining: set<string>)
    requires AllTake(glob, ps, patches.Keys, remaining)
    requires AllTake(glob, qs, patches.Keys, remaining - AllHits(glob, ps, patches.Keys))
    ensures var a, b, all := AllHits(glob, ps, patches.Keys), AllHits(glob, qs, patches.Keys),
                             AllHits(glob, ps + qs, patches.Keys);
            && a <= patches.Keys && b <= patches.Keys && all == a + b
            && multiset(all) == multiset(a) + multiset(b)
            && forall op :: SumLines(all, patches, op) == SumLines(a, patches, op) + SumLines(b, patches, op)
  {
    var names := patches.Keys;
    AllHitsConcat(glob, ps, qs, names);
    AllHitsBound(glob, ps, names);
    AllHitsBound(glob, qs, names);
    AllTakeIff(glob, qs, names, remaining - AllHits(glob, ps, names));
    forall op
      ensures SumLines(AllHits(glob, ps + qs, names), patches, op)
           == SumLines(AllHits(glob, ps, names), patches, op) + SumLines(AllHits(glob, qs, names), patches, op)
    {
      SumLinesUnion(AllHits(glob, ps, names), AllHits(glob, qs, names), patches, op);
    }
  }

  // ---- The objects ----

  function StatFor(name: string, p: Patch): FileStat {
    FileStat(name, Lines(p.chunks, Add), Lines(p.chunks, Delete), p.binary, p)
  }

  function StatLines(files: seq<FileStat>, op: Operation): nat {
    if files == [] then 0
    else
      var last := files[|files| - 1];
      StatLines(files[..|files| - 1], op) +
      match op { case Add => last.linesAdded case Delete => last.linesDeleted case Equal => 0 }
  }

  function PathBag(files: seq<FileStat>): multiset<string> {
    if files == [] then multiset{}
    else PathBag(files[..|files| - 1]) + multiset{files[|files| - 1].path}
  }

  /** `files` lists each of `names` once, with its own patch and line counts. */
  ghost predicate Lists(files: seq<FileStat>, names: set<string>, patches: Patches) {
    && names <= patches.Keys
    && PathBag(files) == multiset(names)
    && (forall i :: 0 <= i < |files| ==>
          files[i].path in patches && files[i] == StatFor(files[i].path, patches[files[i].path]))
    && StatLines(files, Add) == SumLines(names, patches, Add)
    && StatLines(files, Delete) == SumLines(names, patches, Delete)
  }

  /** What is listed of a file is its own: its name, its patch, and where lines end in what that adds and
      deletes. */
  lemma ListedIsThePatch(files: seq<FileStat>, names: set<string>, patches: Patches, i: nat)
    requires Lists(files, names, patches) && i < |files|
    ensures files[i].path in patches
    ensures var f, p := files[i], patches[files[i].path];
            && f.patch == p && f.binary == p.binary
            && f.linesAdded == |LineEnds(p.chunks, Add)| && f.linesDeleted == |LineEnds(p.chunks, Delete)|
  {
    LinesAreLineEnds(patches[files[i].path].chunks, Add);
    LinesAreLineEnds(patches[files[i].path].chunks, Delete);
  }

  lemma ListsOneMore(files: seq<FileStat>, names: set<string>, patches: Patches, n: string)
    requires Lists(files, names, patches) && n in patches && n !in names
    ensures Lists(files + [StatFor(n, patches[n])], names + {n}, patches)
    ensures forall op ::
            SumLines(names + {n}, patches, op) == SumLines(names, patches, op) + Lines(patches[n].chunks, op)
  {
    var more := files + [StatFor(n, patches[n])];
    assert more[..|more| - 1] == files;
    SumOneMore(names, patches, n);
  }

  lemma SumOneMore(names: set<string>, patches: Patches, n: string)
    requires names <= patches.Keys && n in patches && n !in names
    ensures multiset(names + {n}) == multiset(names) + multiset{n}
    ensures forall op ::
            SumLines(names + {n}, patches, op) == SumLines(names, patches, op) + Lines(patches[n].chunks, op)
  {
    assert names + {n} - {n} == names;
    forall op
      ensures SumLines(names + {n}, patches, op) == SumLines(names, patches, op) + Lines(patches[n].chunks, op)
    {
      SumLinesRemove(names + {n}, patches, op, n);
    }
  }

  /** The names no definition has taken yet: one set, shared by the whole walk. */
  class Remaining {
    var names: set<string>

    constructor (names: set<string>)
      ensures this.names == names
    {
      this.names := names;
    }
  }

  /** A definition. Its title, patterns and children come from the YAML and stay; `Sub` of the source
      is `sub` followed by `appended`, which is what main adds to the root. */
  class ForkDefinition {
    const title: string
    const globs: seq<string>
    const sub: seq<ForkDefinition>
    var appended: seq<ForkDefinition>
    var files: seq<FileStat>
    var linesAdded: nat
    var linesDeleted: nat
    var level: int
    ghost const shape: Shape
    ghost const repr: set<ForkDefinition>

    constructor (title: string, level: int)
      ensures this.title == title && this.level == level && globs == [] && sub == [] && appended == []
      ensures shape == Shape([], []) && repr == {this}
      ensures files == [] && linesAdded == 0 && linesDeleted == 0
    {
      this.title, this.level, globs, sub, appended := title, level, [], [], [];
      files, linesAdded, linesDeleted := [], 0, 0;
      shape, repr := Shape([], []), {this};
    }

    /** A definition as read from the YAML: its patterns, and children that share nothing. */
    constructor WithChildren(title: string, globs: seq<string>, sub: seq<ForkDefinition>)
      requires Apart(sub) && AllPristine(sub)
      ensures Valid() && Pristine() && this.title == title && this.globs == globs && this.sub == sub
      ensures shape == Shape(globs, ShapesOf(sub)) && fresh(this) && repr == {this} + ReprOf(sub)
    {
      this.title, this.level, this.globs, this.sub, appended := title, 0, globs, sub, [];
      files, linesAdded, linesDeleted := [], 0, 0;
      shape, repr := Shape(globs, ShapesOf(sub)), {this} + ReprOf(sub);
    }

    /** The definitions below this one form a tree of the given shape. */
    ghost predicate Valid()
      decreases shape
    {
      && this in repr && globs == shape.globs && |sub| == |shape.subs|
      && (forall i :: 0 <= i < |sub| ==>
            && sub[i] in repr && sub[i].repr <= repr && this !in sub[i].repr
            && sub[i].shape == shape.subs[i] && sub[i].Valid())
      && (forall i, j :: 0 <= i < j < |sub| ==> sub[i].repr !! sub[j].repr)
    }

    /** As read from the YAML: no files and no lines yet, anywhere in the tree. */
    ghost predicate Pristine()
      reads this, repr
      requires Valid()
      decreases shape
    {
      && files == [] && linesAdded == 0 && linesDeleted == 0 && appended == []
      && forall i :: 0 <= i < |sub| ==> sub[i].Pristine()
    }

    /** Hydrated from `patches`: the files are those its own patterns match, the line totals those of
        its whole subtree, and so on down, one level deeper each time. */
    ghost predicate Hydrated(glob: Glob, patches: Patches, lvl: int)
      reads this, repr
      requires Valid()
      decreases shape
    {
      && level == lvl
      && Lists(files, AllHits(glob, shape.globs, patches.Keys), patches)
      && linesAdded == LinesOf(glob, patches, shape, Add)
      && linesDeleted == LinesOf(glob, patches, shape, Delete)
      && forall i :: 0 <= i < |sub| ==> sub[i].Hydrated(glob, patches, lvl + 1)
    }

    /** The lines that the first `n` children report. */
    ghost function ChildLines(n: nat, op: Operation): nat
      reads sub`linesAdded, sub`linesDeleted
      requires n <= |sub|
    {
      if n == 0 then 0 else ChildLines(n - 1, op) + LinesFrom(n - 1, op)
    }

    /** Each total in the tree is that of the definition's own files plus its children's totals. */
    ghost predicate Balanced()
      reads this, repr
      requires Valid()
      decreases shape
    {
      && linesAdded == StatLines(files, Add) + ChildLines(|sub|, Add)
      && linesDeleted == StatLines(files, Delete) + ChildLines(|sub|, Delete)
      && forall i :: 0 <= i < |sub| ==> sub[i].Balanced()
    }

    /** With the definition that main appends to the root: the totals are those of the root's own files and of
        all its children, appended or not. */
    ghost predicate PageBalanced()
      reads this, sub, appended
      requires Valid()
    {
      && |appended| <= 1
      && linesAdded == StatLines(files, Add) + ChildLines(|sub|, Add)
                       + (if appended == [] then 0 else appended[0].linesAdded)
      && linesDeleted == StatLines(files, Delete) + ChildLines(|sub|, Delete)
                         + (if appended == [] then 0 else appended[0].linesDeleted)
    }

    /** The tree and the definition appended to it have every patch once; that definition, if there is anything
        left for it, has just the rest; and the totals are the sums over all patches, and add up. */
    ghost predicate CoversAll(patches: Patches, rest: set<string>)
      reads this, repr, appended
      requires Valid()
    {
      && PageBalanced()
      && Paths() + AppendedBag(appended) == multiset(patches.Keys)
      && (appended == [] <==> rest == {})
      && (rest != {} ==> Lists(appended[0].files, rest, patches) && appended[0].CountsItsFiles())
      && linesAdded == SumLines(patches.Keys, patches, Add)
      && linesDeleted == SumLines(patches.Keys, patches, Delete)
    }

    /** The totals are those of the definition's own files. */
    ghost predicate CountsItsFiles()
      reads this
    {
      linesAdded == StatLines(files, Add) && linesDeleted == StatLines(files, Delete)
    }

    /** A hydrated root but for its totals, which main still adds to. */
    ghost predicate RootHydrated(glob: Glob, patches: Patches)
      reads `files, repr - {this}
      requires Valid()
    {
      && Lists(files, AllHits(glob, globs, patches.Keys), patches)
      && forall i :: 0 <= i < |sub| ==> sub[i].Hydrated(glob, patches, 2) && sub[i].Balanced()
    }

    /** The paths of all files in the tree. */
    ghost function Paths(): multiset<string>
      reads `files, repr`files
      requires Valid()
      decreases shape, |sub| + 1
    {
      ChildPaths(|sub|) + PathBag(files)
    }

    ghost function ChildPaths(n: nat): multiset<string>
      reads repr`files
      requires Valid() && n <= |sub|
      decreases shape, n
    {
      if n == 0 then multiset{} else ChildPaths(n - 1) + sub[n - 1].Paths()
    }

    lemma {:induction false} HydratedPaths(glob: Glob, patches: Patches, lvl: int)
      requires Valid() && Hydrated(glob, patches, lvl)
      ensures Paths() == PathsOf(glob, patches.Keys, shape)
      decreases shape
    {
      forall i | 0 <= i < |sub| ensures sub[i].Paths() == PathsOf(glob, patches.Keys, shape.subs[i]) {
        sub[i].HydratedPaths(glob, patches, lvl + 1);
      }
      CollectedPaths(glob, patches.Keys, |sub|);
      assert shape.subs[..|sub|] == shape.subs;
    }

    lemma {:induction false} CollectedPaths(glob: Glob, names: set<string>, n: nat)
      requires Valid() && n <= |sub|
      requires forall i :: 0 <= i < |sub| ==> sub[i].Paths() == PathsOf(glob, names, shape.subs[i])
      ensures ChildPaths(n) == AllPathsOf(glob, names, shape.subs[..n])
    {
      if n == 0 {
        NoPaths(glob, names, shape.subs[..0]);
      } else {
        CollectedPaths(glob, names, n - 1);
        AllPathsStep(glob, names, shape.subs, n);
        assert sub[n - 1].Paths() == PathsOf(glob, names, shape.subs[n - 1]);
      }
    }

    /** The lines that child `i` reports. */
    ghost function LinesFrom(i: nat, op: Operation): nat
      reads sub`linesAdded, sub`linesDeleted
      requires i < |sub|
    {
      match op { case Add => sub[i].linesAdded case Delete => sub[i].linesDeleted case Equal => 0 }
    }

    lemma {:induction false} CollectedLines(glob: Glob, patches: Patches, n: nat, op: Operation)
      requires n <= |sub| == |shape.subs|
      requires forall i :: 0 <= i < |sub| ==> LinesFrom(i, op) == LinesOf(glob, patches, shape.subs[i], op)
      ensures ChildLines(n, op) == AllLinesOf(glob, patches, shape.subs[..n], op)
    {
      if n == 0 {
        NoLines(glob, patches, shape.subs[..0], op);
      } else {
        CollectedLines(glob, patches, n - 1, op);
        AllLinesStep(glob, patches, shape.subs, n, op);
        assert LinesFrom(n - 1, op) == LinesOf(glob, patches, shape.subs[n - 1], op);
      }
    }

    lemma {:induction false} HydratedIsBalanced(glob: Glob, patches: Patches, lvl: int)
      requires Valid() && Hydrated(glob, patches, lvl)
      ensures Balanced()
      decreases shape
    {
      CollectedLines(glob, patches, |sub|, Add);
      CollectedLines(glob, patches, |sub|, Delete);
      assert shape.subs[..|sub|] == shape.subs;
      forall i | 0 <= i < |sub| ensures sub[i].Balanced() {
        sub[i].HydratedIsBalanced(glob, patches, lvl + 1);
      }
    }

    method HydratePatch(name: string, p: Patch)
      modifies this`files, this`linesAdded, this`linesDeleted
      ensures files == old(files) + [StatFor(name, p)]
      ensures linesAdded == old(linesAdded) + Lines(p.chunks, Add)
      ensures linesDeleted == old(linesDeleted) + Lines(p.chunks, Delete)
    {
      var added := CountOperations(p.chunks, Add);
      var deleted := CountOperations(p.chunks, Delete);
      var stat := FileStat(name, added, deleted, p.binary, p);
      files := files + [stat];
      linesAdded := linesAdded + stat.linesAdded;
      linesDeleted := linesDeleted + stat.linesDeleted;
    }

    /** This definition has the files of `mine`, and their lines on top of what its children brought. */
    ghost predicate Holds(mine: set<string>, patches: Patches, subAdded: nat, subDeleted: nat)
      reads this
    {
      && Lists(files, mine, patches)
      && linesAdded == subAdded + SumLines(mine, patches, Add)
      && linesDeleted == subDeleted + SumLines(mine, patches, Delete)
    }

    /** One name against one pattern: fails on a malformed pattern and on a name already taken. */
    method TakeIfMatched(glob: Glob, p: string, name: string, patches: Patches, remaining: Remaining,
                         ghost mine: set<string>, ghost subAdded: nat, ghost subDeleted: nat)
      returns (ok: bool)
      requires Holds(mine, patches, subAdded, subDeleted)
      requires name in patches && (name in remaining.names ==> name !in mine)
      modifies this`files, this`linesAdded, this`linesDeleted, remaining
      ensures ok <==> glob(p, name) != BadPattern && (glob(p, name) == Matched ==> name in old(remaining.names))
      ensures ok ==> var hit := HitOf(glob, p, name);
                     && remaining.names == old(remaining.names) - hit
                     && Holds(mine + hit, patches, subAdded, subDeleted)
    {
      var m := glob(p, name);
      if m == BadPattern {
        return false;
      }
      if m == NoMatch {
        assert mine + {} == mine;
        return true;
      }
      if name !in remaining.names {
        return false;
      }
      remaining.names := remaining.names - {name};
      ListsOneMore(files, mine, patches, name);
      HydratePatch(name, patches[name]);
      return true;
    }

    /** Takes the names that pattern `p` matches, in whatever order the map yields them. */
    method HydratePattern(glob: Glob, p: string, patches: Patches, remaining: Remaining,
                          ghost mine: set<string>, ghost subAdded: nat, ghost subDeleted: nat)
      returns (ok: bool)
      requires Holds(mine, patches, subAdded, subDeleted) && mine !! remaining.names
      modifies this`files, this`linesAdded, this`linesDeleted, remaining
      ensures ok <==> Takes(glob, p, patches.Keys, old(remaining.names))
      ensures ok ==> remaining.names == old(remaining.names) - Hits(glob, p, patches.Keys)
      ensures ok ==> Holds(mine + Hits(glob, p, patches.Keys), patches, subAdded, subDeleted)
    {
      var todo := patches.Keys;
      ghost var had, done := remaining.names, {};
      PatternStarts(glob, p, patches.Keys, had, mine);
      while todo != {}
        invariant Partly(glob, p, patches.Keys, had, todo, done)
        invariant remaining.names == had - done
        invariant Holds(mine + done, patches, subAdded, subDeleted)
        decreases todo
      {
        var name :| name in todo;
        NextName(glob, p, patches.Keys, had, todo, done, name, mine);
        var fine := TakeIfMatched(glob, p, name, patches, remaining, mine + done, subAdded, subDeleted);
        if !fine {
          return false;
        }
        todo, done := todo - {name}, done + HitOf(glob, p, name);
      }
      PatternEnds(glob, p, patches.Keys, had, done);
      return true;
    }

    /** The second half of hydrate: this definition's own patterns, in turn. */
    method HydrateGlobs(glob: Glob, patches: Patches, remaining: Remaining, ghost subAdded: nat, ghost subDeleted: nat)
      returns (ok: bool)
      requires Holds({}, patches, subAdded, subDeleted)
      modifies this`files, this`linesAdded, this`linesDeleted, remaining
      ensures ok <==> AllTake(glob, globs, patches.Keys, old(remaining.names))
      ensures ok ==> remaining.names == old(remaining.names) - AllHits(glob, globs, patches.Keys)
      ensures ok ==> Holds(AllHits(glob, globs, patches.Keys), patches, subAdded, subDeleted)
    {
      ghost var had, names := remaining.names, patches.Keys;
      assert globs[..0] == [] && had - {} == had;
      for i := 0 to |globs|
        invariant AllTake(glob, globs[..i], names, had)
        invariant remaining.names == had - AllHits(glob, globs[..i], names)
        invariant Holds(AllHits(glob, globs[..i], names), patches, subAdded, subDeleted)
      {
        NextPattern(glob, globs, i, names, had);
        var fine := HydratePattern(glob, globs[i], patches, remaining,
                                   AllHits(glob, globs[..i], names), subAdded, subDeleted);
        if !fine {
          return false;
        }
      }
      assert globs[..|globs|] == globs;
      return true;
    }

    /** Child `i`'s turn in hydrate: it takes its names, and its lines are added to this one's. */
    method HydrateChild(glob: Glob, patches: Patches, remaining: Remaining, i: nat, lvl: int) returns (ok: bool)
      requires Valid() && i < |sub| && sub[i].Pristine()
      modifies sub[i].repr`files, sub[i].repr`linesAdded, sub[i].repr`linesDeleted, sub[i].repr`level
      modifies this`linesAdded, this`linesDeleted, remaining
      ensures ok <==> AllTake(glob, Patterns(shape.subs[i]), patches.Keys, old(remaining.names))
      ensures ok ==> remaining.names == old(remaining.names) - AllHits(glob, Patterns(shape.subs[i]), patches.Keys)
      ensures ok ==> sub[i].Hydrated(glob, patches, lvl + 1)
      ensures ok ==> linesAdded == old(linesAdded) + LinesOf(glob, patches, shape.subs[i], Add)
      ensures ok ==> linesDeleted == old(linesDeleted) + LinesOf(glob, patches, shape.subs[i], Delete)
      decreases shape, 0
    {
      ok := sub[i].Hydrate(glob, patches, remaining, lvl + 1);
      if ok {
        linesAdded := linesAdded + sub[i].linesAdded;
        linesDeleted := linesDeleted + sub[i].linesDeleted;
      }
    }

    /** Child `i`'s turn, and what it leaves alone: the other children. */
    method HydrateSub(glob: Glob, patches: Patches, remaining: Remaining, i: nat, lvl: int) returns (ok: bool)
      requires Valid() && i < |sub| && sub[i].Pristine()
      modifies repr`files, repr`linesAdded, repr`linesDeleted, repr`level, remaining
      ensures ok <==> AllTake(glob, Patterns(shape.subs[i]), patches.Keys, old(remaining.names))
      ensures ok ==> remaining.names == old(remaining.names) - AllHits(glob, Patterns(shape.subs[i]), patches.Keys)
      ensures ok ==> sub[i].Hydrated(glob, patches, lvl + 1)
      ensures ok ==> linesAdded == old(linesAdded) + LinesOf(glob, patches, shape.subs[i], Add)
      ensures ok ==> linesDeleted == old(linesDeleted) + LinesOf(glob, patches, shape.subs[i], Delete)
      ensures files == old(files) && level == old(level)
      ensures forall j :: 0 <= j < |sub| && j != i ==>
                && (old(sub[j].Pristine()) ==> sub[j].Pristine())
                && (old(sub[j].Hydrated(glob, patches, lvl + 1)) ==> sub[j].Hydrated(glob, patches, lvl + 1))
      decreases shape, 1
    {
      ok := HydrateChild(glob, patches, remaining, i, lvl);
    }

    /** The first half of hydrate: the children, in turn. */
    method HydrateSubs(glob: Glob, patches: Patches, remaining: Remaining, lvl: int) returns (ok: bool)
      requires Valid() && Pristine()
      modifies repr`files, repr`linesAdded, repr`linesDeleted, repr`level, remaining
      ensures ok <==> AllTake(glob, AllPatterns(shape.subs), patches.Keys, old(remaining.names))
      ensures ok ==> remaining.names == old(remaining.names) - AllHits(glob, AllPatterns(shape.subs), patches.Keys)
      ensures ok ==> forall j :: 0 <= j < |sub| ==> sub[j].Hydrated(glob, patches, lvl + 1)
      ensures ok ==> linesAdded == AllLinesOf(glob, patches, shape.subs, Add)
      ensures ok ==> linesDeleted == AllLinesOf(glob, patches, shape.subs, Delete)
      ensures files == [] && level == old(level)
      decreases shape, 3
    {
      ghost var had := remaining.names;
      assert shape.subs[..0] == [] && had - {} == had;
      for i := 0 to |sub|
        invariant files == [] && level == old(level)
        invariant SubsDone(glob, patches, remaining, i, lvl, had)
      {
        var fine := HydrateNext(glob, patches, remaining, i, lvl, had);
        if !fine {
          return false;
        }
      }
      assert shape.subs[..|sub|] == shape.subs;
      return true;
    }

    /** The first `i` children are hydrated, have taken their names and brought their lines; the others wait. */
    ghost predicate SubsDone(glob: Glob, patches: Patches, remaining: Remaining, i: nat, lvl: int, had: set<string>)
      reads this, repr, remaining
      requires Valid() && i <= |sub|
    {
      && (forall j :: 0 <= j < i ==> sub[j].Hydrated(glob, patches, lvl + 1))
      && (forall j :: i <= j < |sub| ==> sub[j].Pristine())
      && AllTake(glob, AllPatterns(shape.subs[..i]), patches.Keys, had)
      && remaining.names == had - AllHits(glob, AllPatterns(shape.subs[..i]), patches.Keys)
      && linesAdded == AllLinesOf(glob, patches, shape.subs[..i], Add)
      && linesDeleted == AllLinesOf(glob, patches, shape.subs[..i], Delete)
    }

    method HydrateNext(glob: Glob, patches: Patches, remaining: Remaining, i: nat, lvl: int, ghost had: set<string>)
      returns (ok: bool)
      requires Valid() && i < |sub| && SubsDone(glob, patches, remaining, i, lvl, had)
      modifies repr`files, repr`linesAdded, repr`linesDeleted, repr`level, remaining
      ensures ok ==> SubsDone(glob, patches, remaining, i + 1, lvl, had)
      ensures !ok ==> !AllTake(glob, AllPatterns(shape.subs), patches.Keys, had)
      ensures files == old(files) && level == old(level)
      decreases shape, 2
    {
      NextSub(glob, patches, shape, i, had);
      ok := HydrateSub(glob, patches, remaining, i, lvl);
    }

    /** Hands out the remaining names to this definition and those below it. */
    method Hydrate(glob: Glob, patches: Patches, remaining: Remaining, lvl: int) returns (ok: bool)
      requires Valid() && Pristine()
      modifies repr`files, repr`linesAdded, repr`linesDeleted, repr`level, remaining
      ensures ok <==> AllTake(glob, Patterns(shape), patches.Keys, old(remaining.names))
      ensures ok ==> remaining.names == old(remaining.names) - AllHits(glob, Patterns(shape), patches.Keys)
      ensures ok ==> Hydrated(glob, patches, lvl)
      decreases shape, 4
    {
      SubsThenGlobs(glob, shape, patches.Keys, remaining.names);
      level := lvl;
      ok := HydrateSubs(glob, patches, remaining, lvl);
      if !ok {
        return false;
      }
      ok := HydrateOwn(glob, patches, remaining, lvl);
    }

    /** Once its children are hydrated, a definition is when its own patterns have taken their names. */
    method HydrateOwn(glob: Glob, patches: Patches, remaining: Remaining, lvl: int) returns (ok: bool)
      requires Valid() && level == lvl && files == []
      requires forall j :: 0 <= j < |sub| ==> sub[j].Hydrated(glob, patches, lvl + 1)
      requires linesAdded == AllLinesOf(glob, patches, shape.subs, Add)
      requires linesDeleted == AllLinesOf(glob, patches, shape.subs, Delete)
      modifies this`files, this`linesAdded, this`linesDeleted, remaining
      ensures ok <==> AllTake(glob, shape.globs, patches.Keys, old(remaining.names))
      ensures ok ==> remaining.names == old(remaining.names) - AllHits(glob, shape.globs, patches.Keys)
      ensures ok ==> Hydrated(glob, patches, lvl)
    {
      ok := HydrateGlobs(glob, patches, remaining, linesAdded, linesDeleted);
    }
  }

  ghost function ShapesOf(sub: seq<ForkDefinition>): (shapes: seq<Shape>)
    ensures |shapes| == |sub| && forall i :: 0 <= i < |sub| ==> shapes[i] == sub[i].shape
  {
    seq(|sub|, i requires 0 <= i < |sub| => sub[i].shape)
  }

  /** Valid trees that share nothing. */
  ghost predicate Apart(sub: seq<ForkDefinition>) {
    && (forall i :: 0 <= i < |sub| ==> sub[i].Valid())
    && (forall i, j :: 0 <= i < j < |sub| ==> sub[i].repr !! sub[j].repr)
  }

  ghost predicate AllPristine(sub: seq<ForkDefinition>)
    reads ReprOf(sub)
    requires Apart(sub)
  {
    forall i :: 0 <= i < |sub| ==> sub[i].Pristine()
  }

  lemma ApartSnoc(sub: seq<ForkDefinition>, child: ForkDefinition)
    requires Apart(sub) && child.Valid() && child.repr !! ReprOf(sub)
    ensures Apart(sub + [child]) && ReprOf(sub + [child]) == ReprOf(sub) + child.repr
  {
    assert (sub + [child])[..|sub|] == sub;
  }

  /** Everything in the trees of these definitions. */
  ghost function ReprOf(sub: seq<ForkDefinition>): (repr: set<ForkDefinition>)
    ensures forall i :: 0 <= i < |sub| ==> sub[i].repr <= repr
  {
    if sub == [] then {} else ReprOf(sub[..|sub| - 1]) + sub[|sub| - 1].repr
  }

  /** A definition of any shape: there is one for every tree of patterns that the YAML can hold. */
  method Define(title: string, s: Shape) returns (d: ForkDefinition)
    ensures fresh(d.repr) && d.Valid() && d.Pristine() && d.shape == s
    decreases s, 0
  {
    var sub: seq<ForkDefinition> := [];
    ghost var made: set<ForkDefinition> := {};
    for i := 0 to |s.subs|
      invariant |sub| == i && Apart(sub) && AllPristine(sub)
      invariant made == ReprOf(sub) && fresh(made)
      invariant ShapesOf(sub) == s.subs[..i]
    {
      ghost var added;
      sub, added := DefineOneMore(title, sub, s.subs[i], made);
      made := made + added;
    }
    d := new ForkDefinition.WithChildren(title, s.globs, sub);
    assert s.subs[..|s.subs|] == s.subs;
  }

  method DefineOneMore(title: string, sub: seq<ForkDefinition>, s: Shape, ghost made: set<ForkDefinition>)
    returns (more: seq<ForkDefinition>, ghost added: set<ForkDefinition>)
    requires Apart(sub) && AllPristine(sub) && made == ReprOf(sub)
    ensures Apart(more) && AllPristine(more) && ReprOf(more) == made + added && fresh(added)
    ensures |more| == |sub| + 1 && ShapesOf(more) == ShapesOf(sub) + [s]
    decreases s, 1
  {
    var child := Define(title, s);
    ApartSnoc(sub, child);
    more, added := sub + [child], child.repr;
  }

  lemma SubsThenGlobs(glob: Glob, s: Shape, names: set<string>, had: set<string>)
    ensures AllTake(glob, Patterns(s), names, had) <==>
              && AllTake(glob, AllPatterns(s.subs), names, had)
              && AllTake(glob, s.globs, names, had - AllHits(glob, AllPatterns(s.subs), names))
    ensures had - AllHits(glob, Patterns(s), names)
         == had - AllHits(glob, AllPatterns(s.subs), names) - AllHits(glob, s.globs, names)
  {
    AllTakeConcat(glob, AllPatterns(s.subs), s.globs, names, had);
    AllHitsConcat(glob, AllPatterns(s.subs), s.globs, names);
  }

  /** One pattern more of `ps`. */
  lemma NextPattern(glob: Glob, ps: seq<string>, i: nat, names: set<string>, had: set<string>)
    requires i < |ps| && AllTake(glob, ps[..i], names, had)
    ensures var before, hit := AllHits(glob, ps[..i], names), Hits(glob, ps[i], names);
            && AllHits(glob, ps[..i + 1], names) == before + hit
            && had - (before + hit) == had - before - hit
            && (AllTake(glob, ps[..i + 1], names, had) <==> Takes(glob, ps[i], names, had - before))
            && (AllTake(glob, ps, names, had) ==> AllTake(glob, ps[..i + 1], names, had))
  {
    assert ps[..i + 1] == ps[..i] + [ps[i]] && ps == ps[..i + 1] + ps[i + 1..];
    AllHitsConcat(glob, ps[..i], [ps[i]], names);
    AllTakeConcat(glob, ps[..i], [ps[i]], names, had);
    AllTakeConcat(glob, ps[..i + 1], ps[i + 1..], names, had);
    assert AllHits(glob, [ps[i]], names) == Hits(glob, ps[i], names);
  }

  /** One child more of `s`. */
  lemma NextSub(glob: Glob, patches: Patches, s: Shape, i: nat, had: set<string>)
    requires i < |s.subs| && AllTake(glob, AllPatterns(s.subs[..i]), patches.Keys, had)
    ensures var names, ps, qs := patches.Keys, AllPatterns(s.subs[..i]), Patterns(s.subs[i]);
            var before, hit := AllHits(glob, ps, names), AllHits(glob, qs, names);
            && AllHits(glob, AllPatterns(s.subs[..i + 1]), names) == before + hit
            && had - (before + hit) == had - before - hit
            && (AllTake(glob, AllPatterns(s.subs[..i + 1]), names, had) <==> AllTake(glob, qs, names, had - before))
            && (AllTake(glob, AllPatterns(s.subs), names, had)
                ==> AllTake(glob, AllPatterns(s.subs[..i + 1]), names, had))
    ensures forall op :: AllLinesOf(glob, patches, s.subs[..i + 1], op)
                      == AllLinesOf(glob, patches, s.subs[..i], op) + LinesOf(glob, patches, s.subs[i], op)
  {
    var subs, names := s.subs, patches.Keys;
    assert subs[..i + 1][..i] == subs[..i];
    AllHitsConcat(glob, AllPatterns(subs[..i]), Patterns(subs[i]), names);
    AllTakeConcat(glob, AllPatterns(subs[..i]), Patterns(subs[i]), names, had);
    var more := AllPatternsPrefix(subs, i + 1);
    AllTakeConcat(glob, AllPatterns(subs[..i + 1]), more, names, had);
  }

  lemma {:induction false} AllPatternsPrefix(subs: seq<Shape>, i: nat) returns (more: seq<string>)
    requires i <= |subs|
    ensures AllPatterns(subs) == AllPatterns(subs[..i]) + more
  {
    if i == |subs| {
      assert subs[..i] == subs;
      more := [];
    } else {
      var init := subs[..|subs| - 1];
      more := AllPatternsPrefix(init, i);
      assert init[..i] == subs[..i];
      more := more + Patterns(subs[|subs| - 1]);
    }
  }

  /** All names but those to do have been tried, and `done` are the hits among them. */
  ghost predicate Partly(
    glob: Glob, p: string, names: set<string>, had: set<string>, todo: set<string>, done: set<string>)
  {
    && todo <= names
    && (forall n :: n in names - todo ==> glob(p, n) != BadPattern)
    && done == Hits(glob, p, names) - todo
    && done <= had
  }

  ghost function HitOf(glob: Glob, p: string, name: string): set<string> {
    if glob(p, name) == Matched then {name} else {}
  }

  lemma PatternStarts(glob: Glob, p: string, names: set<string>, had: set<string>, mine: set<string>)
    ensures Partly(glob, p, names, had, names, {}) && mine + {} == mine && had - {} == had
  {
  }

  /** One name more: either the pattern fails on it, or its hit is added. */
  lemma NextName(glob: Glob, p: string, names: set<string>, had: set<string>, todo: set<string>, done: set<string>,
                 name: string, mine: set<string>)
    requires Partly(glob, p, names, had, todo, done) && name in todo
    ensures name !in done
    ensures var hit := HitOf(glob, p, name);
            && mine + (done + hit) == mine + done + hit && had - (done + hit) == had - done - hit
            && if glob(p, name) != BadPattern && (glob(p, name) == Matched ==> name in had - done)
               then Partly(glob, p, names, had, todo - {name}, done + hit)
               else !Takes(glob, p, names, had)
  {
    assert glob(p, name) == Matched <==> name in Hits(glob, p, names);
  }

  lemma PatternEnds(glob: Glob, p: string, names: set<string>, had: set<string>, done: set<string>)
    requires Partly(glob, p, names, had, {}, done)
    ensures Takes(glob, p, names, had) && done == Hits(glob, p, names)
  {
  }

  // ---- The page ----

  /** The "other changes" definition: what no pattern matched. */
  method OtherChanges(patches: Patches, rest: set<string>) returns (other: ForkDefinition)
    requires rest <= patches.Keys
    ensures fresh(other) && other.level == 2 && Lists(other.files, rest, patches)
    ensures other.linesAdded == SumLines(rest, patches, Add)
    ensures other.linesDeleted == SumLines(rest, patches, Delete)
    ensures other.CountsItsFiles()
  {
    other := new ForkDefinition("other changes", 2);
    ListsNothing(patches);
    AddPatches(other, patches, rest);
  }

  lemma ListsNothing(patches: Patches)
    ensures Lists([], {}, patches) && SumLines({}, patches, Add) == SumLines({}, patches, Delete) == 0
  {
  }

  method AddPatches(other: ForkDefinition, patches: Patches, rest: set<string>)
    requires rest <= patches.Keys && other.Holds({}, patches, 0, 0)
    modifies other`files, other`linesAdded, other`linesDeleted
    ensures other.Holds(rest, patches, 0, 0)
  {
    var todo := rest;
    assert rest - todo == {};
    while todo != {}
      invariant todo <= rest && other.Holds(rest - todo, patches, 0, 0)
      decreases todo
    {
      var name :| name in todo;
      assert rest - (todo - {name}) == rest - todo + {name};
      AddPatch(other, patches, rest - todo, name);
      todo := todo - {name};
    }
    assert rest - todo == rest;
  }

  method AddPatch(other: ForkDefinition, patches: Patches, ghost done: set<string>, name: string)
    requires name in patches && name !in done && other.Holds(done, patches, 0, 0)
    modifies other`files, other`linesAdded, other`linesDeleted
    ensures other.Holds(done + {name}, patches, 0, 0)
  {
    ListsOneMore(other.files, done, patches, name);
    other.HydratePatch(name, patches[name]);
  }

  method HydrateRoot(root: ForkDefinition, glob: Glob, patches: Patches)
    returns (ok: bool, rest: set<string>)
    requires root.Valid() && root.Pristine()
    modifies root.repr`files, root.repr`linesAdded, root.repr`linesDeleted, root.repr`level
    ensures ok <==> MatchedAtMostOnce(glob, Patterns(root.shape), patches.Keys)
    ensures ok ==> root.Hydrated(glob, patches, 1) && root.Balanced()
    ensures var taken := AllHits(glob, Patterns(root.shape), patches.Keys);
            && taken <= patches.Keys
            && (ok ==> rest == patches.Keys - taken && root.Paths() == multiset(taken))
            && (ok ==> root.linesAdded == SumLines(taken, patches, Add))
            && (ok ==> root.linesDeleted == SumLines(taken, patches, Delete))
  {
    var remaining := new Remaining(patches.Keys);
    AllTakeIff(glob, Patterns(root.shape), patches.Keys, patches.Keys);
    AllHitsBound(glob, Patterns(root.shape), patches.Keys);
    ok := root.Hydrate(glob, patches, remaining, 1);
    rest := remaining.names;
    if ok {
      root.HydratedIsBalanced(glob, patches, 1);
      root.HydratedPaths(glob, patches, 1);
      TreeIsPartition(glob, patches, root.shape, patches.Keys);
    }
  }

  /** HydrateRoot, as far as main's next step needs it. */
  method HydrateTree(root: ForkDefinition, glob: Glob, patches: Patches)
    returns (ok: bool, rest: set<string>)
    requires root.Valid() && root.Pristine()
    modifies root.repr`files, root.repr`linesAdded, root.repr`linesDeleted, root.repr`level
    ensures ok <==> MatchedAtMostOnce(glob, Patterns(root.shape), patches.Keys)
    ensures root.appended == []
    ensures ok ==> root.RootHydrated(glob, patches) && root.PageBalanced()
    ensures var taken := AllHits(glob, Patterns(root.shape), patches.Keys);
            && taken <= patches.Keys
            && (ok ==> rest == patches.Keys - taken && root.Paths() == multiset(taken))
            && (ok ==> root.linesAdded == SumLines(taken, patches, Add))
            && (ok ==> root.linesDeleted == SumLines(taken, patches, Delete))
  {
    ok, rest := HydrateRoot(root, glob, patches);
  }

  /** Main's walk over the un-ignored patches: it succeeds exactly when no pattern is malformed and no
      file is matched twice; then every patch is in one definition, and the root counts all lines. */
  method HydratePage(root: ForkDefinition, glob: Glob, patches: Patches) returns (ok: bool)
    requires root.Valid() && root.Pristine()
    modifies root.repr`files, root.repr`linesAdded, root.repr`linesDeleted, root.repr`level, root`appended
    ensures ok <==> MatchedAtMostOnce(glob, Patterns(root.shape), patches.Keys)
    ensures ok ==> root.RootHydrated(glob, patches)
    ensures ok ==> root.CoversAll(patches, patches.Keys - AllHits(glob, Patterns(root.shape), patches.Keys))
  {
    var rest;
    ok, rest := HydrateTree(root, glob, patches);
    if ok {
      FinishPage(root, glob, patches, rest, AllHits(glob, Patterns(root.shape), patches.Keys));
    }
  }

  /** AddOtherChanges, and what it leaves alone: the rest of the tree. */
  method FinishPage(root: ForkDefinition, glob: Glob, patches: Patches, rest: set<string>, ghost taken: set<string>)
    requires root.Valid() && root.appended == [] && root.PageBalanced() && root.RootHydrated(glob, patches)
    requires taken <= patches.Keys && rest == patches.Keys - taken && root.Paths() == multiset(taken)
    requires root.linesAdded == SumLines(taken, patches, Add)
    requires root.linesDeleted == SumLines(taken, patches, Delete)
    modifies root`appended, root`linesAdded, root`linesDeleted
    ensures root.RootHydrated(glob, patches)
    ensures root.CoversAll(patches, rest)
  {
    AddOtherChanges(root, patches, rest, taken);
  }

  ghost function AppendedBag(ds: seq<ForkDefinition>): multiset<string>
    reads ds
  {
    if ds == [] then multiset{} else AppendedBag(ds[..|ds| - 1]) + PathBag(ds[|ds| - 1].files)
  }

  method AddOtherChanges(root: ForkDefinition, patches: Patches, rest: set<string>, ghost taken: set<string>)
    requires root.Valid() && root.appended == [] && root.PageBalanced()
    requires taken <= patches.Keys && rest == patches.Keys - taken && root.Paths() == multiset(taken)
    requires root.linesAdded == SumLines(taken, patches, Add)
    requires root.linesDeleted == SumLines(taken, patches, Delete)
    modifies root`appended, root`linesAdded, root`linesDeleted
    ensures root.CoversAll(patches, rest)
  {
    if rest == {} {
      NothingLeft(root, patches, taken);
    } else {
      AppendRest(root, patches, rest, taken);
    }
  }

  method AppendRest(root: ForkDefinition, patches: Patches, rest: set<string>, ghost taken: set<string>)
    requires root.Valid() && root.appended == [] && root.PageBalanced()
    requires taken <= patches.Keys && rest == patches.Keys - taken && rest != {} && root.Paths() == multiset(taken)
    requires root.linesAdded == SumLines(taken, patches, Add)
    requires root.linesDeleted == SumLines(taken, patches, Delete)
    modifies root`appended, root`linesAdded, root`linesDeleted
    ensures root.CoversAll(patches, rest)
  {
    var other := OtherChanges(patches, rest);
    Append(root, other, patches, rest, taken);
  }

  lemma NothingLeft(root: ForkDefinition, patches: Patches, taken: set<string>)
    requires root.Valid() && root.appended == [] && root.PageBalanced()
    requires taken <= patches.Keys && patches.Keys - taken == {} && root.Paths() == multiset(taken)
    requires root.linesAdded == SumLines(taken, patches, Add)
    requires root.linesDeleted == SumLines(taken, patches, Delete)
    ensures root.CoversAll(patches, {})
  {
    assert taken + (patches.Keys - taken) == patches.Keys;
    assert taken + {} == taken;
  }

  lemma TakenAndRest(patches: Patches, taken: set<string>, rest: set<string>)
    requires taken <= patches.Keys && rest == patches.Keys - taken
    ensures SumLines(patches.Keys, patches, Add) == SumLines(taken, patches, Add) + SumLines(rest, patches, Add)
    ensures SumLines(patches.Keys, patches, Delete)
         == SumLines(taken, patches, Delete) + SumLines(rest, patches, Delete)
    ensures multiset(taken) + multiset(rest) == multiset(patches.Keys)
    ensures rest == {} ==> taken == patches.Keys
  {
    SumLinesUnion(taken, rest, patches, Add);
    SumLinesUnion(taken, rest, patches, Delete);
    assert taken + rest == patches.Keys;
  }

  /** What main does with the definition of the rest. */
  method Append(root: ForkDefinition, other: ForkDefinition, patches: Patches,
                ghost rest: set<string>, ghost taken: set<string>)
    requires root.Valid() && root.appended == [] && root.PageBalanced() && other !in root.repr
    requires taken <= patches.Keys && rest == patches.Keys - taken && rest != {} && root.Paths() == multiset(taken)
    requires Lists(other.files, rest, patches) && other.CountsItsFiles()
    requires root.linesAdded == SumLines(taken, patches, Add) && other.linesAdded == SumLines(rest, patches, Add)
    requires root.linesDeleted == SumLines(taken, patches, Delete)
    requires other.linesDeleted == SumLines(rest, patches, Delete)
    modifies root`appended, root`linesAdded, root`linesDeleted
    ensures root.CoversAll(patches, rest)
  {
    Attach(root, other);
    Covered(root, other, patches, rest, taken);
  }

  method Attach(root: ForkDefinition, other: ForkDefinition)
    requires root.Valid() && root.appended == [] && root.PageBalanced() && other !in root.repr
    modifies root`appended, root`linesAdded, root`linesDeleted
    ensures root.appended == [other] && root.PageBalanced() && root.Paths() == old(root.Paths())
    ensures root.linesAdded == old(root.linesAdded) + other.linesAdded
    ensures root.linesDeleted == old(root.linesDeleted) + other.linesDeleted
  {
    root.appended := [other];
    root.linesAdded := root.linesAdded + other.linesAdded;
    root.linesDeleted := root.linesDeleted + other.linesDeleted;
  }

  lemma Covered(root: ForkDefinition, other: ForkDefinition, patches: Patches, rest: set<string>, taken: set<string>)
    requires root.Valid() && root.appended == [other] && root.PageBalanced()
    requires taken <= patches.Keys && rest == patches.Keys - taken && rest != {} && root.Paths() == multiset(taken)
    requires Lists(other.files, rest, patches) && other.CountsItsFiles()
    requires root.linesAdded == SumLines(taken, patches, Add) + SumLines(rest, patches, Add)
    requires root.linesDeleted == SumLines(taken, patches, Delete) + SumLines(rest, patches, Delete)
    ensures root.CoversAll(patches, rest)
  {
    TakenAndRest(patches, taken, rest);
    assert [other][..0] == [];
  }
}
