/**
 * The texture cache as a list of records searched front to back by path,
 * and the definitions that say how a run of slot paths changes it.
 */
module TextureCache {
  import opened Wrappers
  import opened MeshData

  /** The first cached record whose path is `path`: the record the linear scan stops at. */
  function Lookup(cache: seq<Texture>, path: string): (r: Option<Texture>)
    ensures r.Some? ==> r.value in cache && r.value.path == path
    ensures r.None? <==> forall k :: 0 <= k < |cache| ==> cache[k].path != path
  {
    if cache == [] then None
    else if cache[0].path == path then Some(cache[0])
    else Lookup(cache[1..], path)
  }

  /** No two cached records share a path. */
  ghost predicate PathsDistinct(cache: seq<Texture>)
  {
    forall i, j :: 0 <= i < j < |cache| ==> cache[i].path != cache[j].path
  }

  /** No two cached records share a GPU name. */
  ghost predicate IdsDistinct(cache: seq<Texture>)
  {
    forall i, j :: 0 <= i < j < |cache| ==> cache[i].id != cache[j].id
  }

  /** The scan stops at the first index whose path matches. */
  lemma {:induction false} LookupAt(cache: seq<Texture>, path: string, j: nat)
    requires j < |cache| && cache[j].path == path
    requires forall k :: 0 <= k < j ==> cache[k].path != path
    ensures Lookup(cache, path) == Some(cache[j])
  {
    if j > 0 {
      LookupAt(cache[1..], path, j - 1);
    }
  }

  /** Appending to the cache does not change a path that is already found. */
  lemma {:induction false} LookupExtend(cache: seq<Texture>, more: seq<Texture>, path: string)
    requires Lookup(cache, path).Some?
    ensures Lookup(cache + more, path) == Lookup(cache, path)
  {
    if cache[0].path != path {
      assert (cache + more)[1..] == cache[1..] + more;
      LookupExtend(cache[1..], more, path);
    }
  }

  /** After a miss, the appended record is what the scan finds. */
  lemma LookupAppendMiss(cache: seq<Texture>, t: Texture)
    requires Lookup(cache, t.path).None?
    ensures Lookup(cache + [t], t.path) == Some(t)
  {
    LookupAt(cache + [t], t.path, |cache|);
  }

  /** In a cache with distinct paths, every record is the one its path finds: one path, one record, one GPU name. */
  lemma LookupUnique(cache: seq<Texture>, t: Texture)
    requires PathsDistinct(cache) && t in cache
    ensures Lookup(cache, t.path) == Some(t)
  {
    var j :| 0 <= j < |cache| && cache[j] == t;
    LookupAt(cache, t.path, j);
  }

  /** Two references into a cache with distinct paths that name the same path are the same record. */
  lemma SamePathSameRecord(cache: seq<Texture>, t: Texture, u: Texture)
    requires PathsDistinct(cache) && t in cache && u in cache && t.path == u.path
    ensures t == u
  {
    LookupUnique(cache, t);
    LookupUnique(cache, u);
  }

  /** The paths among `slots` that `known` does not hold, each once, in order of first appearance. */
  function NewPaths(known: seq<string>, slots: seq<string>): seq<string>
  {
    if slots == [] then []
    else
      var earlier := NewPaths(known, slots[..|slots| - 1]);
      var p := slots[|slots| - 1];
      if p in known || p in earlier then earlier else earlier + [p]
  }

  /**
   * The new paths are pairwise distinct, none of them is known, each is a slot,
   * and every slot ends up known or new.
   */
  lemma {:induction false} NewPathsFresh(known: seq<string>, slots: seq<string>)
    ensures var ps := NewPaths(known, slots);
      && (forall i, j :: 0 <= i < j < |ps| ==> ps[i] != ps[j])
      && (forall i :: 0 <= i < |ps| ==> ps[i] !in known && ps[i] in slots)
      && (forall i :: 0 <= i < |slots| ==> slots[i] in known || slots[i] in ps)
  {
    if slots != [] {
      var init := slots[..|slots| - 1];
      NewPathsFresh(known, init);
      forall i | 0 <= i < |init| ensures init[i] in slots {
        assert init[i] == slots[i];
      }
    }
  }

  /** Taking one more slot adds its path exactly when it is neither known nor already new. */
  lemma NewPathsStep(known: seq<string>, slots: seq<string>, i: nat)
    requires i < |slots|
    ensures NewPaths(known, slots[..i + 1]) ==
      if slots[i] in known + NewPaths(known, slots[..i]) then NewPaths(known, slots[..i])
      else NewPaths(known, slots[..i]) + [slots[i]]
  {
    assert slots[..i + 1][..i] == slots[..i];
  }

  /** A slot whose path is already cached leaves the cache's path list in step with NewPaths. */
  lemma {:induction false} NewPathsHit(known: seq<string>, cached: seq<string>, slots: seq<string>, i: nat)
    requires i < |slots| && cached == known + NewPaths(known, slots[..i]) && slots[i] in cached
    ensures cached == known + NewPaths(known, slots[..i + 1])
  {
    NewPathsStep(known, slots, i);
  }

  /** A slot whose path is not cached adds exactly that path to the cache's path list. */
  lemma {:induction false} NewPathsMiss(known: seq<string>, cached: seq<string>, slots: seq<string>, i: nat)
    requires i < |slots| && cached == known + NewPaths(known, slots[..i]) && slots[i] !in cached
    ensures cached + [slots[i]] == known + NewPaths(known, slots[..i + 1])
  {
    NewPathsStep(known, slots, i);
  }

  /** Slots whose paths are all cached add nothing: no texture is loaded and the cache does not grow. */
  lemma {:induction false} NewPathsAllKnown(known: seq<string>, slots: seq<string>)
    requires forall i :: 0 <= i < |slots| ==> slots[i] in known
    ensures NewPaths(known, slots) == []
  {
    if slots != [] {
      NewPathsAllKnown(known, slots[..|slots| - 1]);
    }
  }

  /** A texture slot as the loader visits it: its path and the type tag it is loaded under. */
  datatype Slot = Slot(path: string, kind: string)

  /** Every path of `paths` tagged `kind`. */
  function Tagged(paths: seq<string>, kind: string): seq<Slot>
  {
    seq(|paths|, k requires 0 <= k < |paths| => Slot(paths[k], kind))
  }

  function SlotPaths(slots: seq<Slot>): seq<string>
  {
    seq(|slots|, k requires 0 <= k < |slots| => slots[k].path)
  }

  /** The path and the type tag of each record. */
  function SlotsOf(records: seq<Texture>): seq<Slot>
  {
    seq(|records|, k requires 0 <= k < |records| => Slot(records[k].path, records[k].kind))
  }

  /**
   * The records a run of tagged slots adds to a cache holding `known`: each
   * slot whose path is neither known nor met at an earlier slot, in order,
   * with that first slot's tag.
   */
  function NewSlots(known: seq<string>, slots: seq<Slot>): seq<Slot>
  {
    if slots == [] then []
    else
      var earlier := NewSlots(known, slots[..|slots| - 1]);
      var s := slots[|slots| - 1];
      if s.path in known || s.path in SlotPaths(earlier) then earlier else earlier + [s]
  }

  lemma SlotPathsConcat(a: seq<Slot>, b: seq<Slot>)
    ensures SlotPaths(a + b) == SlotPaths(a) + SlotPaths(b)
  {
    assert forall k :: 0 <= k < |a + b| ==> SlotPaths(a + b)[k] == (SlotPaths(a) + SlotPaths(b))[k];
  }

  lemma SlotsOfConcat(a: seq<Texture>, b: seq<Texture>)
    ensures SlotsOf(a + b) == SlotsOf(a) + SlotsOf(b)
  {
    assert forall k :: 0 <= k < |a + b| ==> SlotsOf(a + b)[k] == (SlotsOf(a) + SlotsOf(b))[k];
  }

  /** With one tag throughout, the new slots are the new paths under that tag. */
  lemma {:induction false} NewSlotsTagged(known: seq<string>, paths: seq<string>, kind: string)
    ensures NewSlots(known, Tagged(paths, kind)) == Tagged(NewPaths(known, paths), kind)
  {
    if paths != [] {
      var init := paths[..|paths| - 1];
      var p := paths[|paths| - 1];
      NewSlotsTagged(known, init, kind);
      assert Tagged(paths, kind)[..|paths| - 1] == Tagged(init, kind);
      var earlier := NewPaths(known, init);
      assert SlotPaths(Tagged(earlier, kind)) == earlier;
      assert Tagged(earlier + [p], kind) == Tagged(earlier, kind) + [Slot(p, kind)];
    }
  }

  /**
   * Two runs of slots in a row add what the first adds, then what the second
   * adds to the cache the first left behind.
   */
  lemma {:induction false} NewSlotsAppend(known: seq<string>, a: seq<Slot>, b: seq<Slot>)
    ensures NewSlots(known, a + b)
         == NewSlots(known, a) + NewSlots(known + SlotPaths(NewSlots(known, a)), b)
    decreases |b|
  {
    if b == [] {
      assert a + b == a;
    } else {
      var front := b[..|b| - 1];
      var s := b[|b| - 1];
      NewSlotsAppend(known, a, front);
      assert (a + b)[..|a + b| - 1] == a + front;
      assert (a + b)[|a + b| - 1] == s;
      var first := NewSlots(known, a);
      var second := NewSlots(known + SlotPaths(first), front);
      SlotPathsConcat(first, second);
      assert (s.path in known || s.path in SlotPaths(first + second))
          == (s.path in known + SlotPaths(first) || s.path in SlotPaths(second));
    }
  }

  /** Every slot added is one of `slots`, with a path not known before; no path is added twice. */
  lemma {:induction false} NewSlotsFrom(known: seq<string>, slots: seq<Slot>)
    ensures forall i :: 0 <= i < |NewSlots(known, slots)| ==>
      NewSlots(known, slots)[i] in slots && NewSlots(known, slots)[i].path !in known
    ensures forall i, j :: 0 <= i < j < |NewSlots(known, slots)| ==>
      NewSlots(known, slots)[i].path != NewSlots(known, slots)[j].path
  {
    if slots != [] {
      var init := slots[..|slots| - 1];
      NewSlotsFrom(known, init);
      var earlier := NewSlots(known, init);
      forall i | 0 <= i < |earlier| ensures earlier[i] in slots {
        var k :| 0 <= k < |init| && init[k] == earlier[i];
        assert slots[k] == init[k];
      }
      var s := slots[|slots| - 1];
      if !(s.path in known || s.path in SlotPaths(earlier)) {
        var added := earlier + [s];
        assert NewSlots(known, slots) == added;
        forall i | 0 <= i < |earlier| ensures earlier[i].path != s.path {
          assert SlotPaths(earlier)[i] == earlier[i].path;
        }
        forall i | 0 <= i < |added| ensures added[i] in slots && added[i].path !in known {
          if i == |earlier| {
            assert added[i] == slots[|slots| - 1];
          } else {
            assert added[i] == earlier[i];
          }
        }
        forall i, j | 0 <= i < j < |added| ensures added[i].path != added[j].path {
          assert added[i] == earlier[i];
          if j < |earlier| {
            assert added[j] == earlier[j];
          }
        }
      }
    }
  }
}
