/** Patches, their line counts, and which glob patterns take which of them. */
module ForkPatches {
  datatype Operation = Equal | Add | Delete

  datatype Chunk = Chunk(op: Operation, content: string)

  datatype Patch = Patch(chunks: seq<Chunk>, binary: bool)

  type Patches = map<string, Patch>

  /** What matching a pattern against a name says; a malformed pattern is an error. */
  datatype Match = NoMatch | Matched | BadPattern

  type Glob = (string, string) -> Match

  // ---- Line counts ----

  function Newlines(content: string): nat {
    if content == "" then 0
    else Newlines(content[..|content| - 1]) + (if content[|content| - 1] == '\n' then 1 else 0)
  }

  function Lines(chunks: seq<Chunk>, op: Operation): nat {
    if chunks == [] then 0
    else
      var c := chunks[|chunks| - 1];
      Lines(chunks[..|chunks| - 1], op) + (if c.op == op then Newlines(c.content) else 0)
  }

  /** Where lines end in the chunks of one kind: the chunk's position and that of the newline in it. */
  ghost function LineEnds(chunks: seq<Chunk>, op: Operation): set<(nat, nat)> {
    set i: nat, j: nat
      | i < |chunks| && chunks[i].op == op && j < |chunks[i].content| && chunks[i].content[j] == '\n'
      :: (i, j)
  }

  ghost function LineEndsIn(content: string, i: nat): set<(nat, nat)> {
    set j: nat | j < |content| && content[j] == '\n' :: (i, j)
  }

  lemma {:induction false} NewlinesAreLineEnds(content: string, i: nat)
    ensures Newlines(content) == |LineEndsIn(content, i)|
  {
    if content == "" {
      assert LineEndsIn(content, i) == {};
    } else {
      var init, n := content[..|content| - 1], |content| - 1;
      NewlinesAreLineEnds(init, i);
      assert LineEndsIn(content, i) == LineEndsIn(init, i) + (if content[n] == '\n' then {(i, n)} else {});
    }
  }

  /** What is counted for one kind of chunk are the ends of lines in the chunks of that kind. */
  lemma {:induction false} LinesAreLineEnds(chunks: seq<Chunk>, op: Operation)
    ensures Lines(chunks, op) == |LineEnds(chunks, op)|
  {
    if chunks == [] {
      assert LineEnds(chunks, op) == {};
    } else {
      var init, n := chunks[..|chunks| - 1], |chunks| - 1;
      LinesAreLineEnds(init, op);
      NewlinesAreLineEnds(chunks[n].content, n);
      LineEndsSnoc(chunks, op);
    }
  }

  lemma LineEndsSnoc(chunks: seq<Chunk>, op: Operation)
    requires chunks != []
    ensures var n := |chunks| - 1;
            var last := if chunks[n].op == op then LineEndsIn(chunks[n].content, n) else {};
            && LineEnds(chunks, op) == LineEnds(chunks[..n], op) + last
            && LineEnds(chunks[..n], op) !! last
  {
  }

  method CountOperations(chunks: seq<Chunk>, op: Operation) returns (out: nat)
    ensures out == |LineEnds(chunks, op)| == Lines(chunks, op)
  {
    out := 0;
    for i := 0 to |chunks|
      invariant out == Lines(chunks[..i], op)
    {
      assert chunks[..i + 1][..i] == chunks[..i];
      if chunks[i].op == op {
        out := out + Newlines(chunks[i].content);
      }
    }
    assert chunks[..|chunks|] == chunks;
    LinesAreLineEnds(chunks, op);
  }

  /** The lines that the patches of `names` add or delete. */
  ghost function SumLines(names: set<string>, patches: Patches, op: Operation): nat
    requires names <= patches.Keys
  {
    if names == {} then 0
    else
      var n :| n in names;
      Lines(patches[n].chunks, op) + SumLines(names - {n}, patches, op)
  }

  /** The sum does not depend on the order in which names are taken. */
  lemma {:induction false} SumLinesRemove(names: set<string>, patches: Patches, op: Operation, n: string)
    requires names <= patches.Keys && n in names
    ensures SumLines(names, patches, op)
         == Lines(patches[n].chunks, op) + SumLines(names - {n}, patches, op)
  {
    var m :| m in names && SumLines(names, patches, op)
                        == Lines(patches[m].chunks, op) + SumLines(names - {m}, patches, op);
    if m != n {
      SumLinesRemove(names - {m}, patches, op, n);
      SumLinesRemove(names - {n}, patches, op, m);
      assert names - {m} - {n} == names - {n} - {m};
    }
  }

  lemma {:induction false} SumLinesUnion(a: set<string>, b: set<string>, patches: Patches, op: Operation)
    requires a <= patches.Keys && b <= patches.Keys && a !! b
    ensures SumLines(a + b, patches, op) == SumLines(a, patches, op) + SumLines(b, patches, op)
  {
    if a == {} {
      assert a + b == b;
    } else {
      var n :| n in a;
      SumLinesRemove(a, patches, op, n);
      SumLinesRemove(a + b, patches, op, n);
      SumLinesUnion(a - {n}, b, patches, op);
      assert a + b - {n} == (a - {n}) + b;
    }
  }

  // ---- Patterns taking names ----

  /** The names that pattern `p` matches. */
  ghost function Hits(glob: Glob, p: string, names: set<string>): set<string> {
    set n | n in names && glob(p, n) == Matched
  }

  ghost function AllHits(glob: Glob, ps: seq<string>, names: set<string>): set<string> {
    if ps == [] then {} else Hits(glob, ps[0], names) + AllHits(glob, ps[1..], names)
  }

  /** Pattern `p` is well formed on all names and takes only names that still remain. */
  ghost predicate Takes(glob: Glob, p: string, names: set<string>, remaining: set<string>) {
    && (forall n :: n in names ==> glob(p, n) != BadPattern)
    && Hits(glob, p, names) <= remaining
  }

  /** The patterns, applied in turn, each take only names that still remain. */
  ghost predicate AllTake(glob: Glob, ps: seq<string>, names: set<string>, remaining: set<string>) {
    ps == [] ||
    (Takes(glob, ps[0], names, remaining) &&
     AllTake(glob, ps[1..], names, remaining - Hits(glob, ps[0], names)))
  }

  lemma {:induction false} AllHitsConcat(glob: Glob, ps: seq<string>, qs: seq<string>, names: set<string>)
    ensures AllHits(glob, ps + qs, names) == AllHits(glob, ps, names) + AllHits(glob, qs, names)
  {
    if ps == [] {
      assert ps + qs == qs;
    } else {
      assert (ps + qs)[1..] == ps[1..] + qs;
      AllHitsConcat(glob, ps[1..], qs, names);
    }
  }

  lemma {:induction false} AllTakeConcat(glob: Glob, ps: seq<string>, qs: seq<string>,
                                         names: set<string>, remaining: set<string>)
    ensures AllTake(glob, ps + qs, names, remaining) <==>
              && AllTake(glob, ps, names, remaining)
              && AllTake(glob, qs, names, remaining - AllHits(glob, ps, names))
  {
    if ps == [] {
      assert ps + qs == qs;
      assert remaining - {} == remaining;
    } else {
      assert (ps + qs)[1..] == ps[1..] + qs;
      var h := Hits(glob, ps[0], names);
      AllTakeConcat(glob, ps[1..], qs, names, remaining - h);
      assert remaining - h - AllHits(glob, ps[1..], names) == remaining - AllHits(glob, ps, names);
    }
  }

  /** No pattern is malformed, and no name is matched by two of the pattern occurrences. */
  ghost predicate MatchedAtMostOnce(glob: Glob, ps: seq<string>, names: set<string>) {
    && (forall i, n :: 0 <= i < |ps| && n in names ==> glob(ps[i], n) != BadPattern)
    && (forall i, j, n :: 0 <= i < j < |ps| && n in names ==>
          !(glob(ps[i], n) == Matched && glob(ps[j], n) == Matched))
  }

  lemma {:induction false} AllHitsAre(glob: Glob, ps: seq<string>, names: set<string>, n: string)
    ensures n in AllHits(glob, ps, names)
       <==> n in names && exists i :: 0 <= i < |ps| && glob(ps[i], n) == Matched
  {
    if ps != [] {
      AllHitsAre(glob, ps[1..], names, n);
      if n in AllHits(glob, ps[1..], names) {
        var i :| 0 <= i < |ps[1..]| && glob(ps[1..][i], n) == Matched;
        assert glob(ps[i + 1], n) == Matched;
      }
      if n in names && exists i :: 0 <= i < |ps| && glob(ps[i], n) == Matched {
        var i :| 0 <= i < |ps| && glob(ps[i], n) == Matched;
        if i > 0 {
          assert glob(ps[1..][i - 1], n) == Matched;
        }
      }
    }
  }

  /** Taking in turn succeeds exactly when no pattern is malformed, no name is matched twice, and
      every matched name was there to begin with. */
  lemma {:induction false} AllTakeIff(glob: Glob, ps: seq<string>, names: set<string>, remaining: set<string>)
    ensures AllTake(glob, ps, names, remaining)
       <==> MatchedAtMostOnce(glob, ps, names) && AllHits(glob, ps, names) <= remaining
  {
    if ps != [] {
      var h, rest := Hits(glob, ps[0], names), ps[1..];
      AllTakeIff(glob, rest, names, remaining - h);
      forall n ensures n in AllHits(glob, rest, names)
                  <==> n in names && exists i :: 0 <= i < |rest| && glob(rest[i], n) == Matched
      {
        AllHitsAre(glob, rest, names, n);
      }
      AtMostOnceCons(glob, ps, names);
    }
  }

  lemma AtMostOnceCons(glob: Glob, ps: seq<string>, names: set<string>)
    requires ps != []
    ensures MatchedAtMostOnce(glob, ps, names) <==>
              && (forall n :: n in names ==> glob(ps[0], n) != BadPattern)
              && MatchedAtMostOnce(glob, ps[1..], names)
              && Hits(glob, ps[0], names) !! AllHits(glob, ps[1..], names)
  {
    var rest := ps[1..];
    forall n ensures n in AllHits(glob, rest, names)
                <==> n in names && exists i :: 0 <= i < |rest| && glob(rest[i], n) == Matched
    {
      AllHitsAre(glob, rest, names, n);
    }
    if MatchedAtMostOnce(glob, ps, names) {
      forall i, n | 0 <= i < |rest| && n in names ensures glob(rest[i], n) != BadPattern {
        assert glob(ps[i + 1], n) != BadPattern;
      }
      forall i, j, n | 0 <= i < j < |rest| && n in names
        ensures !(glob(rest[i], n) == Matched && glob(rest[j], n) == Matched)
      {
        assert !(glob(ps[i + 1], n) == Matched && glob(ps[j + 1], n) == Matched);
      }
      forall n | n in AllHits(glob, rest, names) ensures n !in Hits(glob, ps[0], names) {
        var i :| 0 <= i < |rest| && glob(rest[i], n) == Matched;
        assert glob(ps[i + 1], n) == Matched;
      }
    }
    if MatchedAtMostOnce(glob, rest, names) && Hits(glob, ps[0], names) !! AllHits(glob, rest, names)
      && forall n :: n in names ==> glob(ps[0], n) != BadPattern
    {
      forall i, n | 0 <= i < |ps| && n in names ensures glob(ps[i], n) != BadPattern {
        if i > 0 { assert glob(rest[i - 1], n) != BadPattern; }
      }
      forall i, j, n | 0 <= i < j < |ps| && n in names
        ensures !(glob(ps[i], n) == Matched && glob(ps[j], n) == Matched)
      {
        assert ps[j] == rest[j - 1] && (i > 0 ==> ps[i] == rest[i - 1]);
        assert n in Hits(glob, ps[0], names) ==> n !in AllHits(glob, rest, names);
      }
    }
  }
}
