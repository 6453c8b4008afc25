/**
 * The model object: the flat mesh list built from a scene graph, the
 * directory textures are read from, and the cache of textures loaded so far.
 */
module ModelLoader {
  import opened Wrappers
  import Assimp
  import opened Gl
  import opened ModelPaths
  import opened MeshData
  import opened TextureCache
  import Traversal

  /** `after` is `before` followed by one mesh per entry of `order`, each built from that scene mesh. */
  ghost predicate Appended(before: seq<Mesh>, after: seq<Mesh>, scene: Assimp.Scene, order: seq<nat>)
  {
    && |after| == |before| + |order|
    && after[..|before|] == before
    && forall k :: 0 <= k < |order| ==> MeshFromScene(after[|before| + k], scene, order[k])
  }

  lemma {:induction false} AppendedTrans(a: seq<Mesh>, b: seq<Mesh>, c: seq<Mesh>, scene: Assimp.Scene, p: seq<nat>, q: seq<nat>)
    requires Appended(a, b, scene, p) && Appended(b, c, scene, q)
    ensures Appended(a, c, scene, p + q)
  {
    forall k | 0 <= k < |p + q|
      ensures MeshFromScene(c[|a| + k], scene, (p + q)[k])
    {
      if k < |p| {
        assert c[|a| + k] == c[..|b|][|a| + k] == b[|a| + k];
      } else {
        assert (p + q)[k] == q[k - |p|];
      }
    }
    assert c[..|a|] == c[..|b|][..|a|];
  }

  /**
   * One slot of `loadTexturesFromMaterial`: the record found for `slots[i]`
   * (a hit leaves the cache as it was, a miss appends the new record) keeps
   * every resolved slot resolving to its record and the cache's path list in
   * step with NewPaths.
   */
  lemma {:induction false} SlotStep(cache0: seq<Texture>, cacheBefore: seq<Texture>, cacheAfter: seq<Texture>,
                 texturesBefore: seq<Texture>, t: Texture, slots: seq<string>, i: nat, typeName: string)
    requires i < |slots| && t.path == slots[i]
    requires SlotsLoaded(cache0, cacheBefore, texturesBefore, slots, i, typeName)
    requires || (cacheAfter == cacheBefore && Lookup(cacheBefore, slots[i]) == Some(t))
             || (Lookup(cacheBefore, slots[i]).None? && cacheAfter == cacheBefore + [t] && t.kind == typeName)
    ensures SlotsLoaded(cache0, cacheAfter, texturesBefore + [t], slots, i + 1, typeName)
  {
    PathsSnoc(texturesBefore, t);
    assert slots[..i + 1] == slots[..i] + [slots[i]];
    if cacheAfter != cacheBefore {
      SlotMiss(cache0, cacheBefore, texturesBefore, slots, i, t);
      forall k | |cache0| <= k < |cacheAfter| ensures cacheAfter[k].kind == typeName {
        if k < |cacheBefore| {
          assert cacheAfter[k] == cacheBefore[k];
        }
      }
    } else {
      SlotHit(cache0, cacheBefore, texturesBefore, slots, i, t);
    }
    SlotFound(cacheAfter, texturesBefore, t);
    SlotKeepsStart(cache0, cacheAfter, texturesBefore, t);
  }

  /** The records found so far, and the one found for the next slot, are all what the cache finds. */
  lemma SlotFound(cache: seq<Texture>, textures: seq<Texture>, t: Texture)
    requires forall k :: 0 <= k < |textures| ==> Lookup(cache, textures[k].path) == Some(textures[k])
    requires Lookup(cache, t.path) == Some(t)
    ensures forall k :: 0 <= k < |textures + [t]| ==> Lookup(cache, (textures + [t])[k].path) == Some((textures + [t])[k])
  {
    forall k | 0 <= k < |textures + [t]|
      ensures Lookup(cache, (textures + [t])[k].path) == Some((textures + [t])[k])
    {
      if k < |textures| {
        assert (textures + [t])[k] == textures[k];
      }
    }
  }

  /** A record found for a slot whose path the starting cache held is that starting record. */
  lemma SlotKeepsStart(cache0: seq<Texture>, cache: seq<Texture>, textures: seq<Texture>, t: Texture)
    requires Extends(cache0, cache) && Lookup(cache, t.path) == Some(t)
    requires forall k :: 0 <= k < |textures| && Lookup(cache0, textures[k].path).Some? ==>
               Lookup(cache0, textures[k].path) == Some(textures[k])
    ensures forall k :: 0 <= k < |textures + [t]| && Lookup(cache0, (textures + [t])[k].path).Some? ==>
              Lookup(cache0, (textures + [t])[k].path) == Some((textures + [t])[k])
  {
    if Lookup(cache0, t.path).Some? {
      LookupExtend(cache0, cache[|cache0|..], t.path);
      assert cache0 + cache[|cache0|..] == cache;
    }
    forall k | 0 <= k < |textures + [t]| && Lookup(cache0, (textures + [t])[k].path).Some?
      ensures Lookup(cache0, (textures + [t])[k].path) == Some((textures + [t])[k])
    {
      if k < |textures| {
        assert (textures + [t])[k] == textures[k];
      }
    }
  }

  lemma {:induction false} SlotMiss(cache0: seq<Texture>, cacheBefore: seq<Texture>, texturesBefore: seq<Texture>,
                                    slots: seq<string>, i: nat, t: Texture)
    requires i < |slots| && t.path == slots[i] && |texturesBefore| == i
    requires Extends(cache0, cacheBefore)
    requires Paths(cacheBefore) == Paths(cache0) + NewPaths(Paths(cache0), slots[..i])
    requires forall k :: 0 <= k < i ==> Lookup(cacheBefore, texturesBefore[k].path) == Some(texturesBefore[k])
    requires Lookup(cacheBefore, slots[i]).None?
    ensures Extends(cache0, cacheBefore + [t])
    ensures forall k :: 0 <= k < i ==> Lookup(cacheBefore + [t], texturesBefore[k].path) == Some(texturesBefore[k])
    ensures Lookup(cacheBefore + [t], t.path) == Some(t)
    ensures Paths(cacheBefore + [t]) == Paths(cache0) + NewPaths(Paths(cache0), slots[..i + 1])
  {
    assert slots[i] !in Paths(cacheBefore);
    NewPathsMiss(Paths(cache0), Paths(cacheBefore), slots, i);
    PathsSnoc(cacheBefore, t);
    LookupAppendMiss(cacheBefore, t);
    forall k | 0 <= k < i
      ensures Lookup(cacheBefore + [t], texturesBefore[k].path) == Some(texturesBefore[k])
    {
      LookupExtend(cacheBefore, [t], texturesBefore[k].path);
    }
    assert (cacheBefore + [t])[..|cache0|] == cacheBefore[..|cache0|];
  }

  lemma {:induction false} SlotHit(cache0: seq<Texture>, cacheBefore: seq<Texture>, texturesBefore: seq<Texture>,
                                   slots: seq<string>, i: nat, t: Texture)
    requires i < |slots| && t.path == slots[i]
    requires Paths(cacheBefore) == Paths(cache0) + NewPaths(Paths(cache0), slots[..i])
    requires Lookup(cacheBefore, slots[i]) == Some(t)
    ensures Paths(cacheBefore) == Paths(cache0) + NewPaths(Paths(cache0), slots[..i + 1])
  {
    var j :| 0 <= j < |cacheBefore| && cacheBefore[j] == t;
    assert Paths(cacheBefore)[j] == slots[i];
    NewPathsHit(Paths(cache0), Paths(cacheBefore), slots, i);
  }

  /** A miss appends a record with a new path and a fresh name: the cache stays one record per path and per name. */
  lemma {:induction false} CacheMiss(cache0: seq<Texture>, cache: seq<Texture>, names0: seq<nat>, names: seq<nat>, t: Texture)
    requires CacheValid(cache, names) && NamedInOrder(cache0, cache, names0, names)
    requires Lookup(cache, t.path).None? && t.id !in names
    ensures CacheValid(cache + [t], names + [t.id])
    ensures NamedInOrder(cache0, cache + [t], names0, names + [t.id])
  {
    assert (names + [t.id])[..|names0|] == names[..|names0|];
  }

  /** One record per path, each with its own GPU name, every name one of `names`. */
  ghost predicate CacheValid(cache: seq<Texture>, names: seq<nat>)
  {
    && PathsDistinct(cache)
    && IdsDistinct(cache)
    && forall i :: 0 <= i < |cache| ==> cache[i].id in names
  }

  /** Every texture a mesh refers to is a cached record. */
  ghost predicate MeshesUseCache(meshes: seq<Mesh>, cache: seq<Texture>)
  {
    forall i, k :: 0 <= i < |meshes| && 0 <= k < |meshes[i].textures| ==> meshes[i].textures[k] in cache
  }

  /** A record appended to the cache takes nothing away from the meshes. */
  lemma MeshesUseCacheGrow(meshes: seq<Mesh>, cache: seq<Texture>, t: Texture)
    requires MeshesUseCache(meshes, cache)
    ensures MeshesUseCache(meshes, cache + [t])
  {
    assert forall u :: u in cache ==> u in cache + [t];
  }

  /**
   * After the first `i` slots: `textures` holds one record per slot, each the
   * record the cache finds for its path (and the record the starting cache
   * `cache0` held, when it held one); the cache has grown by the new paths,
   * each tagged `typeName`.
   */
  ghost predicate SlotsLoaded(cache0: seq<Texture>, cache: seq<Texture>, textures: seq<Texture>,
                              slots: seq<string>, i: nat, typeName: string)
  {
    && i <= |slots|
    && Paths(textures) == slots[..i]
    && (forall k :: 0 <= k < |textures| ==> Lookup(cache, textures[k].path) == Some(textures[k]))
    && (forall k :: 0 <= k < |textures| && Lookup(cache0, textures[k].path).Some? ==>
          Lookup(cache0, textures[k].path) == Some(textures[k]))
    && Extends(cache0, cache)
    && Paths(cache) == Paths(cache0) + NewPaths(Paths(cache0), slots[..i])
    && (forall k :: |cache0| <= k < |cache| ==> cache[k].kind == typeName)
  }

  /** Every record found for a slot is a cached record. */
  lemma ResolvedAreCached(cache0: seq<Texture>, cache: seq<Texture>, textures: seq<Texture>, slots: seq<string>,
                          typeName: string)
    requires SlotsLoaded(cache0, cache, textures, slots, |slots|, typeName)
    ensures forall k :: 0 <= k < |textures| ==> textures[k] in cache
  {
  }

  /** The diffuse records followed by the specular ones: one per slot, in slot order, all cached. */
  lemma MaterialTextures(cache0: seq<Texture>, cache1: seq<Texture>, cache2: seq<Texture>,
                         diffuseMaps: seq<Texture>, specularMaps: seq<Texture>, material: Assimp.Material)
    requires SlotsLoaded(cache0, cache1, diffuseMaps, material.diffuse, |material.diffuse|, "diffuse")
    requires SlotsLoaded(cache1, cache2, specularMaps, material.specular, |material.specular|, "specular")
    ensures Extends(cache0, cache2)
    ensures Paths(diffuseMaps + specularMaps) == material.diffuse + material.specular
    ensures forall k :: 0 <= k < |diffuseMaps + specularMaps| ==> (diffuseMaps + specularMaps)[k] in cache2
  {
    ResolvedAreCached(cache0, cache1, diffuseMaps, material.diffuse, "diffuse");
    ResolvedAreCached(cache1, cache2, specularMaps, material.specular, "specular");
    assert cache2[..|cache1|] == cache1;
    assert material.diffuse[..|material.diffuse|] == material.diffuse;
    assert material.specular[..|material.specular|] == material.specular;
    PathsConcat(diffuseMaps, specularMaps);
    assert cache2[..|cache0|] == cache1[..|cache0|];
  }

  /** The records appended since `cache0` carry, in order, the names generated since `names0`. */
  ghost predicate NamedInOrder(cache0: seq<Texture>, cache: seq<Texture>, names0: seq<nat>, names: seq<nat>)
  {
    && |cache0| <= |cache|
    && |names| == |names0| + |cache| - |cache0|
    && names[..|names0|] == names0
    && forall k :: |cache0| <= k < |cache| ==> cache[k].id == names[|names0| + k - |cache0|]
  }

  /** The upload `loadTextureFromFile` makes for record `t`: one when its file decodes, none otherwise. */
  function UploadFor(directory: string, files: map<string, Image>, t: Texture): seq<Upload>
  {
    var full := FullTexturePath(directory, t.path);
    if full in files
    then [Upload(t.id, SelectFormat(files[full].channels), files[full].width, files[full].height)]
    else []
  }

  /** The uploads made for `records`, loaded in order. */
  function UploadsOf(directory: string, files: map<string, Image>, records: seq<Texture>): seq<Upload>
  {
    if records == [] then []
    else UploadsOf(directory, files, records[..|records| - 1]) + UploadFor(directory, files, records[|records| - 1])
  }

  lemma {:induction false} UploadsOfAppend(directory: string, files: map<string, Image>, a: seq<Texture>, b: seq<Texture>)
    ensures UploadsOf(directory, files, a + b) == UploadsOf(directory, files, a) + UploadsOf(directory, files, b)
    decreases |b|
  {
    if b == [] {
      assert a + b == a;
    } else {
      var front := b[..|b| - 1];
      assert (a + b)[..|a + b| - 1] == a + front;
      UploadsOfAppend(directory, files, a, front);
    }
  }

  /**
   * Loading `records` uploads at most once per record, only under a record's
   * own name; with distinct names, no name is uploaded to twice.
   */
  lemma {:induction false} UploadsOfNames(directory: string, files: map<string, Image>, records: seq<Texture>)
    requires IdsDistinct(records)
    ensures |UploadsOf(directory, files, records)| <= |records|
    ensures forall i :: 0 <= i < |UploadsOf(directory, files, records)| ==>
      exists k :: 0 <= k < |records| && records[k].id == UploadsOf(directory, files, records)[i].name
    ensures forall i, j :: 0 <= i < j < |UploadsOf(directory, files, records)| ==>
      UploadsOf(directory, files, records)[i].name != UploadsOf(directory, files, records)[j].name
  {
    if records != [] {
      var front := records[..|records| - 1];
      var last := records[|records| - 1];
      UploadsOfNames(directory, files, front);
      var u := UploadsOf(directory, files, records);
      var v := UploadsOf(directory, files, front);
      assert u == v + UploadFor(directory, files, last);
      forall i | 0 <= i < |u|
        ensures exists k :: 0 <= k < |records| && records[k].id == u[i].name
      {
        if i < |v| {
          var k :| 0 <= k < |front| && front[k].id == v[i].name;
          assert records[k] == front[k];
        } else {
          assert u[i].name == records[|records| - 1].id;
        }
      }
      forall i, j | 0 <= i < j < |u|
        ensures u[i].name != u[j].name
      {
        if j >= |v| {
          var k :| 0 <= k < |front| && front[k].id == v[i].name;
          assert records[k] == front[k];
        }
      }
    }
  }

  /**
   * Since `cache0`, `names0` and `uploads0`: each record appended to the cache
   * carries the next name generated, and the uploads are those of the appended
   * records whose files decode, in order.
   */
  ghost predicate LoadedOnce(directory: string, files: map<string, Image>, cache0: seq<Texture>, cache: seq<Texture>,
                             names0: seq<nat>, names: seq<nat>, uploads0: seq<Upload>, uploads: seq<Upload>)
  {
    && NamedInOrder(cache0, cache, names0, names)
    && uploads == uploads0 + UploadsOf(directory, files, cache[|cache0|..])
  }

  /** Nothing loaded yet. */
  lemma LoadedOnceNone(directory: string, files: map<string, Image>, cache: seq<Texture>, names: seq<nat>,
                       uploads: seq<Upload>)
    ensures LoadedOnce(directory, files, cache, cache, names, names, uploads, uploads)
  {
    assert cache[|cache|..] == [];
  }

  /** A miss appends a record, its generated name and its upload, if any. */
  lemma {:induction false} LoadedMiss(directory: string, files: map<string, Image>, cache0: seq<Texture>,
                                      cache: seq<Texture>, names0: seq<nat>, names: seq<nat>,
                                      uploads0: seq<Upload>, uploads: seq<Upload>, t: Texture)
    requires LoadedOnce(directory, files, cache0, cache, names0, names, uploads0, uploads)
    ensures LoadedOnce(directory, files, cache0, cache + [t], names0, names + [t.id],
                       uploads0, uploads + UploadFor(directory, files, t))
  {
    var added := (cache + [t])[|cache0|..];
    assert added[..|added| - 1] == cache[|cache0|..];
    assert (names + [t.id])[..|names0|] == names[..|names0|];
  }

  /** Two loads in a row are one load. */
  lemma {:induction false} LoadedOnceTrans(directory: string, files: map<string, Image>,
                                           a: seq<Texture>, b: seq<Texture>, c: seq<Texture>,
                                           na: seq<nat>, nb: seq<nat>, nc: seq<nat>,
                                           ua: seq<Upload>, ub: seq<Upload>, uc: seq<Upload>)
    requires Extends(a, b) && Extends(b, c)
    requires LoadedOnce(directory, files, a, b, na, nb, ua, ub)
    requires LoadedOnce(directory, files, b, c, nb, nc, ub, uc)
    ensures LoadedOnce(directory, files, a, c, na, nc, ua, uc)
  {
    NamedInOrderTrans(a, b, c, na, nb, nc);
    SuffixSplit(a, b, c);
    UploadsTrans(directory, files, b[|a|..], c[|b|..], c[|a|..], ua, ub, uc);
  }

  /** The uploads of two runs of records, loaded one after the other, are the uploads of the two runs as one. */
  lemma UploadsTrans(directory: string, files: map<string, Image>, first: seq<Texture>, second: seq<Texture>,
                     both: seq<Texture>, ua: seq<Upload>, ub: seq<Upload>, uc: seq<Upload>)
    requires both == first + second
    requires ub == ua + UploadsOf(directory, files, first)
    requires uc == ub + UploadsOf(directory, files, second)
    ensures uc == ua + UploadsOf(directory, files, both)
  {
    UploadsOfAppend(directory, files, first, second);
    UploadsAssoc(ua, UploadsOf(directory, files, first), UploadsOf(directory, files, second));
  }

  lemma UploadsAssoc(a: seq<Upload>, b: seq<Upload>, c: seq<Upload>)
    ensures a + b + c == a + (b + c)
  {
  }

  lemma {:induction false} NamedInOrderTrans(a: seq<Texture>, b: seq<Texture>, c: seq<Texture>,
                                             na: seq<nat>, nb: seq<nat>, nc: seq<nat>)
    requires Extends(b, c)
    requires NamedInOrder(a, b, na, nb) && NamedInOrder(b, c, nb, nc)
    ensures NamedInOrder(a, c, na, nc)
  {
    assert nc[..|na|] == nc[..|nb|][..|na|];
    forall k | |a| <= k < |c|
      ensures c[k].id == nc[|na| + k - |a|]
    {
      if k < |b| {
        assert c[k] == c[..|b|][k];
        assert nc[|na| + k - |a|] == nc[..|nb|][|na| + k - |a|];
      }
    }
  }

  /**
   * Over a whole load, on a valid cache: at most one upload per record
   * added, no name uploaded to twice, and every name uploaded to one that was
   * generated during the load.
   */
  lemma NewUploadsOnce(directory: string, files: map<string, Image>, cache0: seq<Texture>, cache: seq<Texture>,
                       names0: seq<nat>, names: seq<nat>, uploads0: seq<Upload>, uploads: seq<Upload>)
    requires CacheValid(cache, names) && Extends(cache0, cache)
    requires LoadedOnce(directory, files, cache0, cache, names0, names, uploads0, uploads)
    ensures |uploads| - |uploads0| <= |cache| - |cache0|
    ensures forall i, j :: |uploads0| <= i < j < |uploads| ==> uploads[i].name != uploads[j].name
    ensures forall i :: |uploads0| <= i < |uploads| ==> uploads[i].name in names[|names0|..]
  {
    var added := cache[|cache0|..];
    assert IdsDistinct(added) by {
      forall i, j | 0 <= i < j < |added|
        ensures added[i].id != added[j].id
      {
        assert added[i] == cache[|cache0| + i] && added[j] == cache[|cache0| + j];
      }
    }
    UploadsOfNames(directory, files, added);
    var u := UploadsOf(directory, files, added);
    forall i | |uploads0| <= i < |uploads|
      ensures uploads[i].name in names[|names0|..]
    {
      assert uploads[i] == u[i - |uploads0|];
      var k :| 0 <= k < |added| && added[k].id == u[i - |uploads0|].name;
      assert added[k] == cache[|cache0| + k];
      assert names[|names0|..][k] == names[|names0| + k];
    }
    forall i, j | |uploads0| <= i < j < |uploads|
      ensures uploads[i].name != uploads[j].name
    {
      assert uploads[i] == u[i - |uploads0|] && uploads[j] == u[j - |uploads0|];
    }
  }

  /** The texture slots of a material in the order `loadMesh` loads them: the diffuse paths, then the specular ones. */
  function MaterialSlots(material: Assimp.Material): seq<Slot>
  {
    Tagged(material.diffuse, "diffuse") + Tagged(material.specular, "specular")
  }

  /** The texture slots of scene mesh `index`; none for a mesh or a material that does not exist. */
  function MeshSlots(scene: Assimp.Scene, index: nat): seq<Slot>
  {
    if index < |scene.meshes| && scene.meshes[index].materialIndex < |scene.materials|
    then MaterialSlots(scene.materials[scene.meshes[index].materialIndex])
    else []
  }

  /** The slot lists `slotsOf` gives the entries of `order`, concatenated in order. */
  function ConcatSlots(slotsOf: nat -> seq<Slot>, order: seq<nat>): seq<Slot>
  {
    if order == [] then []
    else ConcatSlots(slotsOf, order[..|order| - 1]) + slotsOf(order[|order| - 1])
  }

  lemma {:induction false} ConcatSlotsAppend(slotsOf: nat -> seq<Slot>, p: seq<nat>, q: seq<nat>)
    ensures ConcatSlots(slotsOf, p + q) == ConcatSlots(slotsOf, p) + ConcatSlots(slotsOf, q)
    decreases |q|
  {
    if q == [] {
      assert p + q == p;
    } else {
      var front := q[..|q| - 1];
      assert (p + q)[..|p + q| - 1] == p + front;
      ConcatSlotsAppend(slotsOf, p, front);
    }
  }

  /** The texture slots of the scene meshes in `order`, mesh after mesh. */
  function SceneSlots(scene: Assimp.Scene, order: seq<nat>): seq<Slot>
  {
    ConcatSlots((index: nat) => MeshSlots(scene, index), order)
  }

  /** Every mesh of the list, and the appended mesh, refers only to cached records, whatever the cache has gained since. */
  lemma MeshesUseCacheSnoc(meshes: seq<Mesh>, mesh: Mesh, cache0: seq<Texture>, cache: seq<Texture>)
    requires MeshesUseCache(meshes, cache0) && Extends(cache0, cache)
    requires forall k :: 0 <= k < |mesh.textures| ==> mesh.textures[k] in cache
    ensures MeshesUseCache(meshes + [mesh], cache)
  {
    forall i, k | 0 <= i < |meshes + [mesh]| && 0 <= k < |(meshes + [mesh])[i].textures|
      ensures (meshes + [mesh])[i].textures[k] in cache
    {
      if i < |meshes| {
        var t := meshes[i].textures[k];
        var j :| 0 <= j < |cache0| && cache0[j] == t;
        assert cache[j] == cache[..|cache0|][j];
      }
    }
  }

  /**
   * The cache grew from `cache0` by exactly the records `slots` adds to it:
   * one per path not cached before, in order of first appearance, tagged
   * with the type of the slot where the path first appears.
   */
  ghost predicate CacheGrew(cache0: seq<Texture>, cache: seq<Texture>, slots: seq<Slot>)
  {
    Extends(cache0, cache) && SlotsOf(cache[|cache0|..]) == NewSlots(Paths(cache0), slots)
  }

  /** One material type, loaded completely: the cache grew by its slots under the one tag. */
  lemma {:induction false} SlotsLoadedGrew(cache0: seq<Texture>, cache: seq<Texture>, textures: seq<Texture>,
                                           slots: seq<string>, typeName: string)
    requires SlotsLoaded(cache0, cache, textures, slots, |slots|, typeName)
    ensures CacheGrew(cache0, cache, Tagged(slots, typeName))
  {
    NewSlotsTagged(Paths(cache0), slots, typeName);
    assert slots[..|slots|] == slots;
    var added := cache[|cache0|..];
    var newPaths := NewPaths(Paths(cache0), slots);
    forall j | 0 <= j < |added|
      ensures SlotsOf(added)[j] == Tagged(newPaths, typeName)[j]
    {
      assert added[j] == cache[|cache0| + j];
      assert Paths(cache)[|cache0| + j] == newPaths[j];
    }
  }

  /** Two runs of slots loaded in a row grow the cache as the two runs in one. */
  lemma {:induction false} CacheGrewTrans(a: seq<Texture>, b: seq<Texture>, c: seq<Texture>, s: seq<Slot>, t: seq<Slot>)
    requires CacheGrew(a, b, s) && CacheGrew(b, c, t)
    ensures CacheGrew(a, c, s + t)
  {
    CachePathsGrew(a, b, s);
    NewSlotsAppend(Paths(a), s, t);
    SuffixSplit(a, b, c);
    SlotsOfConcat(b[|a|..], c[|b|..]);
  }

  /** The paths of a grown cache: the old paths, then those of the slots added. */
  lemma CachePathsGrew(cache0: seq<Texture>, cache: seq<Texture>, slots: seq<Slot>)
    requires CacheGrew(cache0, cache, slots)
    ensures Paths(cache) == Paths(cache0) + SlotPaths(NewSlots(Paths(cache0), slots))
  {
    var added := cache[|cache0|..];
    assert cache == cache0 + added;
    PathsConcat(cache0, added);
    assert Paths(added) == SlotPaths(SlotsOf(added));
  }

  /**
   * Every record a load adds to the cache comes from a slot of the scene
   * meshes it loaded, with that slot's path and type tag: nothing the scene
   * does not name is loaded.
   */
  lemma AddedFromScene(cache0: seq<Texture>, cache: seq<Texture>, scene: Assimp.Scene, order: seq<nat>)
    requires CacheGrew(cache0, cache, SceneSlots(scene, order))
    ensures forall k :: |cache0| <= k < |cache| ==> Slot(cache[k].path, cache[k].kind) in SceneSlots(scene, order)
    ensures forall k :: |cache0| <= k < |cache| ==> cache[k].path !in Paths(cache0)
  {
    NewSlotsFrom(Paths(cache0), SceneSlots(scene, order));
    forall k | |cache0| <= k < |cache|
      ensures Slot(cache[k].path, cache[k].kind) in SceneSlots(scene, order)
      ensures cache[k].path !in Paths(cache0)
    {
      assert SlotsOf(cache[|cache0|..])[k - |cache0|] == Slot(cache[k].path, cache[k].kind);
    }
  }

  /**
   * A material type whose slot paths are all cached loads nothing: the
   * cache, the generated names and the uploads stay as they were.
   */
  lemma AllCachedLoadsNothing(directory: string, files: map<string, Image>, cache0: seq<Texture>, cache: seq<Texture>,
                              textures: seq<Texture>, slots: seq<string>, typeName: string,
                              names0: seq<nat>, names: seq<nat>, uploads0: seq<Upload>, uploads: seq<Upload>)
    requires SlotsLoaded(cache0, cache, textures, slots, |slots|, typeName)
    requires LoadedOnce(directory, files, cache0, cache, names0, names, uploads0, uploads)
    requires forall i :: 0 <= i < |slots| ==> slots[i] in Paths(cache0)
    ensures cache == cache0 && names == names0 && uploads == uploads0
  {
    assert slots[..|slots|] == slots;
    NewPathsAllKnown(Paths(cache0), slots);
    assert |Paths(cache)| == |Paths(cache0)|;
    assert cache == cache[..|cache0|];
    assert cache[|cache0|..] == [];
  }

  /** The state a load changes: the mesh list, the texture cache, the generated names and the uploads. */
  datatype LoadState = LoadState(meshes: seq<Mesh>, cache: seq<Texture>, names: seq<nat>, uploads: seq<Upload>)

  /**
   * From `s0` to `s`: one mesh appended per entry of `order`, each built from
   * that scene mesh; the cache grown by exactly the slots of those meshes;
   * one name generated per record added and the uploads of those records.
   */
  ghost predicate Progress(directory: string, files: map<string, Image>, scene: Assimp.Scene, order: seq<nat>,
                           s0: LoadState, s: LoadState)
  {
    && Appended(s0.meshes, s.meshes, scene, order)
    && CacheGrew(s0.cache, s.cache, SceneSlots(scene, order))
    && LoadedOnce(directory, files, s0.cache, s.cache, s0.names, s.names, s0.uploads, s.uploads)
  }

  lemma ProgressNone(directory: string, files: map<string, Image>, scene: Assimp.Scene, s: LoadState)
    ensures Progress(directory, files, scene, [], s, s)
  {
    assert s.meshes[..|s.meshes|] == s.meshes;
    assert s.cache[|s.cache|..] == [];
    LoadedOnceNone(directory, files, s.cache, s.names, s.uploads);
  }

  /** Loading the meshes of `p`, then those of `q`, is loading the meshes of `pq`, the two in a row. */
  lemma {:induction false} ProgressTrans(directory: string, files: map<string, Image>, scene: Assimp.Scene,
                                         p: seq<nat>, q: seq<nat>, pq: seq<nat>, a: LoadState, b: LoadState, c: LoadState)
    requires pq == p + q
    requires Progress(directory, files, scene, p, a, b) && Progress(directory, files, scene, q, b, c)
    ensures Progress(directory, files, scene, pq, a, c)
  {
    AppendedTrans(a.meshes, b.meshes, c.meshes, scene, p, q);
    CacheGrewTrans(a.cache, b.cache, c.cache, SceneSlots(scene, p), SceneSlots(scene, q));
    ConcatSlotsAppend((index: nat) => MeshSlots(scene, index), p, q);
    LoadedOnceTrans(directory, files, a.cache, b.cache, c.cache, a.names, b.names, c.names,
                    a.uploads, b.uploads, c.uploads);
  }

  /** One loaded mesh, appended: the step of the first loop of `loadNode`. */
  lemma {:induction false} MeshProgress(directory: string, files: map<string, Image>, scene: Assimp.Scene, index: nat,
                                        mesh: Mesh, s0: LoadState, s: LoadState)
    requires MeshFromScene(mesh, scene, index) && s.meshes == s0.meshes + [mesh]
    requires CacheGrew(s0.cache, s.cache, MaterialSlots(scene.materials[scene.meshes[index].materialIndex]))
    requires LoadedOnce(directory, files, s0.cache, s.cache, s0.names, s.names, s0.uploads, s.uploads)
    ensures Progress(directory, files, scene, [index], s0, s)
  {
    assert [index][..0] == [];
    assert SceneSlots(scene, [index]) == SceneSlots(scene, []) + MeshSlots(scene, index);
    assert MeshSlots(scene, index) == MaterialSlots(scene.materials[scene.meshes[index].materialIndex]);
    assert SceneSlots(scene, []) == [];
    assert SceneSlots(scene, [index]) == MaterialSlots(scene.materials[scene.meshes[index].materialIndex]);
    assert s.meshes[..|s0.meshes|] == s0.meshes;
    assert s.meshes[|s0.meshes| + 0] == mesh;
  }

  /** The meshes of `order[..i]` loaded, then mesh `order[i]`: the step of the first loop of `loadNode`. */
  lemma {:induction false} NodeMeshProgress(directory: string, files: map<string, Image>, scene: Assimp.Scene,
                                            order: seq<nat>, i: nat, s0: LoadState, s1: LoadState, s: LoadState)
    requires i < |order| && Progress(directory, files, scene, order[..i], s0, s1)
    requires Progress(directory, files, scene, [order[i]], s1, s)
    ensures Progress(directory, files, scene, order[..i + 1], s0, s)
  {
    assert order[..i + 1] == order[..i] + [order[i]];
    ProgressTrans(directory, files, scene, order[..i], [order[i]], order[..i + 1], s0, s1, s);
  }

  /** One child subtree loaded after the node's meshes and the earlier children: the step of the second loop of `loadNode`. */
  lemma {:induction false} ChildProgress(directory: string, files: map<string, Image>, scene: Assimp.Scene,
                                         node: Assimp.Node, c: nat, s0: LoadState, s1: LoadState, s2: LoadState)
    requires c < |node.children|
    requires Progress(directory, files, scene, node.meshIndices + Traversal.ChildrenOrder(node.children[..c]), s0, s1)
    requires Progress(directory, files, scene, Traversal.MeshOrder(node.children[c]), s1, s2)
    ensures Progress(directory, files, scene, node.meshIndices + Traversal.ChildrenOrder(node.children[..c + 1]), s0, s2)
  {
    var done := node.meshIndices + Traversal.ChildrenOrder(node.children[..c]);
    var next := node.meshIndices + Traversal.ChildrenOrder(node.children[..c + 1]);
    Traversal.ChildrenOrderStep(node, c);
    ProgressTrans(directory, files, scene, done, Traversal.MeshOrder(node.children[c]), next, s0, s1, s2);
  }

  /** `after` is `before` with records appended at the end. */
  ghost predicate Extends(before: seq<Texture>, after: seq<Texture>)
  {
    |before| <= |after| && after[..|before|] == before
  }

  /** What `c` added to `a` is what `b` added, then what `c` added to `b`. */
  lemma SuffixSplit(a: seq<Texture>, b: seq<Texture>, c: seq<Texture>)
    requires Extends(a, b) && Extends(b, c)
    ensures Extends(a, c) && c[|a|..] == b[|a|..] + c[|b|..]
  {
    assert c == c[..|b|] + c[|b|..];
    assert c[..|a|] == c[..|b|][..|a|];
  }

  /**
   * Two texture references of a model, in any meshes, that name the same path
   * are the same record: the file was loaded once and both share its GPU name.
   */
  lemma SharedTexture(meshes: seq<Mesh>, cache: seq<Texture>, names: seq<nat>, i: nat, k: nat, j: nat, l: nat)
    requires CacheValid(cache, names) && MeshesUseCache(meshes, cache)
    requires i < |meshes| && k < |meshes[i].textures| && j < |meshes| && l < |meshes[j].textures|
    requires meshes[i].textures[k].path == meshes[j].textures[l].path
    ensures meshes[i].textures[k] == meshes[j].textures[l]
    ensures meshes[i].textures[k].id == meshes[j].textures[l].id
  {
    SamePathSameRecord(cache, meshes[i].textures[k], meshes[j].textures[l]);
  }

  /** A loaded mesh's indices name its own vertices whenever the scene's faces do. */
  lemma LoadedIndicesInBounds(m: Mesh, src: Assimp.Mesh, mat: Assimp.Material)
    requires Assimp.PerVertexArrays(src) && MeshFrom(m, src, mat)
    requires FacesInBounds(src.faces, |src.vertices|)
    ensures forall k :: 0 <= k < |m.indices| ==> m.indices[k] < |m.vertices|
  {
    FlattenedIndicesInBounds(src.faces, |src.vertices|);
  }

  /** A loaded mesh of a triangulated scene mesh has three indices per face. */
  lemma LoadedIndexCount(m: Mesh, src: Assimp.Mesh, mat: Assimp.Material)
    requires Assimp.PerVertexArrays(src) && MeshFrom(m, src, mat)
    requires Triangulated(src.faces)
    ensures |m.indices| == 3 * |src.faces|
  {
    TriangulatedIndexCount(src.faces);
  }

  /** A scene of one node holding one triangle without texture coordinates, and a material without textures. */
  function TriangleScene(p0: Assimp.Vector3D, p1: Assimp.Vector3D, p2: Assimp.Vector3D, n: Assimp.Vector3D): Assimp.Scene
  {
    Assimp.Scene(
      Assimp.Node([0], []),
      [Assimp.Mesh([p0, p1, p2], Some([n, n, n]), None, [Assimp.Face([0, 1, 2])], 0)],
      [Assimp.Material([], [])])
  }

  /**
   * Loading the one-triangle scene yields exactly one mesh: three vertices
   * with texture coordinates (0,0), the indices 0, 1, 2, and no textures.
   */
  lemma TriangleSceneLoads(p0: Assimp.Vector3D, p1: Assimp.Vector3D, p2: Assimp.Vector3D, n: Assimp.Vector3D,
                           meshes: seq<Mesh>)
    requires Appended([], meshes, TriangleScene(p0, p1, p2, n), Traversal.MeshOrder(TriangleScene(p0, p1, p2, n).root))
    ensures |meshes| == 1
    ensures |meshes[0].vertices| == 3 && meshes[0].indices == [0, 1, 2] && meshes[0].textures == []
    ensures forall i :: 0 <= i < 3 ==> meshes[0].vertices[i].textureCoordinates == Vec2(0.0, 0.0)
  {
    var scene := TriangleScene(p0, p1, p2, n);
    var order := Traversal.MeshOrder(scene.root);
    assert order == [0] by {
      assert Traversal.ChildrenOrder([]) == [];
    }
    var none: seq<Mesh> := [];
    assert MeshFromScene(meshes[|none| + 0], scene, order[0]);
    var faces := scene.meshes[0].faces;
    assert FlattenFaces(faces) == FlattenFaces(faces[..0]) + faces[0].indices;
    assert |Paths(meshes[0].textures)| == 0;
  }

  /** A scene of one node holding one mesh whose material names one texture file as both its diffuse and its specular map. */
  function SharedTextureScene(mesh: Assimp.Mesh, file: string): Assimp.Scene
  {
    Assimp.Scene(Assimp.Node([0], []), [mesh.(materialIndex := 0)], [Assimp.Material([file], [file])])
  }

  /**
   * Loading that scene into an empty cache loads the file once: one record,
   * tagged "diffuse" after the first slot that names it, one name generated
   * for it, and at most one upload.
   */
  lemma SharedTextureSceneLoads(directory: string, files: map<string, Image>, mesh: Assimp.Mesh, file: string,
                                names0: seq<nat>, uploads0: seq<Upload>, s: LoadState)
    requires Progress(directory, files, SharedTextureScene(mesh, file), Traversal.MeshOrder(SharedTextureScene(mesh, file).root),
                      LoadState([], [], names0, uploads0), s)
    ensures |s.meshes| == 1
    ensures |s.cache| == 1 && s.cache[0].path == file && s.cache[0].kind == "diffuse"
    ensures s.names == names0 + [s.cache[0].id]
    ensures |s.uploads| <= |uploads0| + 1
  {
    var scene := SharedTextureScene(mesh, file);
    assert Traversal.MeshOrder(scene.root) == [0] by {
      assert Traversal.ChildrenOrder([]) == [];
    }
    var slots := [Slot(file, "diffuse"), Slot(file, "specular")];
    assert SceneSlots(scene, [0]) == SceneSlots(scene, []) + MeshSlots(scene, 0);
    assert MaterialSlots(scene.materials[0]) == slots;
    assert SceneSlots(scene, [0]) == slots;
    var one := [Slot(file, "diffuse")];
    assert NewSlots([], slots[..1]) == one by {
      assert slots[..1][..0] == [];
    }
    assert SlotPaths(one) == [file];
    assert NewSlots([], slots) == one;
    assert Paths([]) == [];
    assert s.cache[0..] == s.cache;
    assert SlotsOf(s.cache)[0] == Slot(s.cache[0].path, s.cache[0].kind);
    assert s.names[..|names0|] == names0;
    UploadsOfNames(directory, files, s.cache);
  }

  /**
   * The vertex loop of `loadMesh`: a default-constructed vertex per source
   * vertex, its fields assigned one by one; the normal's y is assigned twice,
   * the second time from the source z, and its z is never assigned.
   */
  method ExtractVertices(mesh: Assimp.Mesh) returns (vertices: seq<Vertex>)
    requires Assimp.PerVertexArrays(mesh)
    ensures |vertices| == |mesh.vertices|
    ensures forall i :: 0 <= i < |mesh.vertices| ==> VertexFrom(vertices[i], mesh, i)
  {
    vertices := [];
    for i := 0 to |mesh.vertices|
      invariant |vertices| == i
      invariant forall k :: 0 <= k < i ==> VertexFrom(vertices[k], mesh, k)
    {
      var vertex: Vertex := *;
      var p := mesh.vertices[i];
      vertex := vertex.(position := Vec3(p.x, p.y, p.z));
      if mesh.texCoords.Some? {
        var uv := mesh.texCoords.value[i];
        vertex := vertex.(textureCoordinates := Vec2(uv.x, uv.y));
      } else {
        vertex := vertex.(textureCoordinates := Vec2(0.0, 0.0));
      }
      var n := mesh.normals.value[i];
      vertex := vertex.(normal := vertex.normal.(x := n.x));
      vertex := vertex.(normal := vertex.normal.(y := n.y));
      vertex := vertex.(normal := vertex.normal.(y := n.z));
      vertices := vertices + [vertex];
    }
  }

  /** The index loop of `loadMesh`: every face's indices, face after face, pushed one at a time. */
  method ExtractIndices(faces: seq<Assimp.Face>) returns (indices: seq<nat>)
    ensures indices == FlattenFaces(faces)
  {
    indices := [];
    for i := 0 to |faces|
      invariant indices == FlattenFaces(faces[..i])
    {
      var face := faces[i];
      for j := 0 to |face.indices|
        invariant indices == FlattenFaces(faces[..i]) + face.indices[..j]
      {
        indices := indices + [face.indices[j]];
      }
      assert faces[..i + 1][..i] == faces[..i];
      assert face.indices[..|face.indices|] == face.indices;
    }
    assert faces[..|faces|] == faces;
  }

  class Model {
    var meshes: seq<Mesh>
    var modelDirectory: string
    var loadedTextures: seq<Texture>

    /**
     * The cache holds one record per path, each with its own GPU name from
     * `gpu`, and every texture a mesh refers to is a cached record.
     */
    ghost predicate Valid(gpu: Gpu)
      reads this, gpu
    {
      && gpu.Valid()
      && CacheValid(loadedTextures, gpu.generated)
      && MeshesUseCache(meshes, loadedTextures)
    }

    /** The part of the object and of the GPU a load changes. */
    ghost function Snapshot(gpu: Gpu): LoadState
      reads this, gpu
    {
      LoadState(meshes, loadedTextures, gpu.generated, gpu.uploads)
    }

    /** `Model()`: no meshes, no directory, an empty cache. */
    constructor ()
      ensures meshes == [] && modelDirectory == "" && loadedTextures == []
    {
      meshes, modelDirectory, loadedTextures := [], "", [];
    }

    /** `Model(path)`: an empty model that then loads `path`. */
    constructor FromFile(path: string, parsed: Option<Assimp.Scene>, files: map<string, Image>, gpu: Gpu)
      requires gpu.Valid()
      requires |path| <= NPOS
      requires parsed.Some? ==> Assimp.WellFormed(parsed.value)
      modifies gpu
      ensures Valid(gpu)
      ensures parsed.None? ==>
        && meshes == [] && modelDirectory == "" && loadedTextures == []
        && gpu.generated == old(gpu.generated) && gpu.uploads == old(gpu.uploads)
      ensures parsed.Some? ==>
        && modelDirectory == DirectoryOf(path)
        && Progress(modelDirectory, files, parsed.value, Traversal.MeshOrder(parsed.value.root),
                    LoadState([], [], old(gpu.generated), old(gpu.uploads)), Snapshot(gpu))
    {
      meshes, modelDirectory, loadedTextures := [], "", [];
      new;
      Load(path, parsed, files, gpu);
    }

    /** `Draw`: the meshes that are drawn, in the order they are drawn: each mesh once, in list order. */
    method Draw() returns (drawn: seq<Mesh>)
      ensures |drawn| == |meshes|
      ensures forall k :: 0 <= k < |drawn| ==> drawn[k] == meshes[k]
    {
      drawn := [];
      var i := 0;
      while i < |meshes|
        invariant 0 <= i <= |meshes|
        invariant drawn == meshes[..i]
      {
        drawn := drawn + [meshes[i]];
        i := i + 1;
      }
    }

    /**
     * `load`: `parsed` is what the importer returned for `path` (`None` for a
     * null scene). A failed parse is only reported and changes nothing; a
     * parsed scene sets the directory, appends its meshes in traversal order
     * and loads the textures their materials name that are not cached yet.
     */
    method Load(path: string, parsed: Option<Assimp.Scene>, files: map<string, Image>, gpu: Gpu)
      requires Valid(gpu)
      requires |path| <= NPOS
      requires parsed.Some? ==> Assimp.WellFormed(parsed.value)
      modifies this, gpu
      ensures Valid(gpu)
      ensures parsed.None? ==>
        && meshes == old(meshes) && modelDirectory == old(modelDirectory)
        && loadedTextures == old(loadedTextures)
        && gpu.generated == old(gpu.generated) && gpu.uploads == old(gpu.uploads)
      ensures parsed.Some? ==>
        && modelDirectory == DirectoryOf(path)
        && Progress(modelDirectory, files, parsed.value, Traversal.MeshOrder(parsed.value.root),
                    old(Snapshot(gpu)), Snapshot(gpu))
    {
      match parsed
      case None =>
      case Some(scene) =>
        modelDirectory := DirectoryOf(path);
        LoadNode(scene, scene.root, files, gpu);
    }

    /**
     * `loadNode`: the meshes of `node` in mesh-index order, then the subtrees
     * of its children left to right, appended to `meshes`.
     */
    method LoadNode(scene: Assimp.Scene, node: Assimp.Node, files: map<string, Image>, gpu: Gpu)
      requires Valid(gpu)
      requires Assimp.MeshesWellFormed(scene) && Assimp.NodeWellFormed(node, |scene.meshes|)
      modifies this`meshes, this`loadedTextures, gpu
      ensures Valid(gpu)
      ensures Progress(modelDirectory, files, scene, Traversal.MeshOrder(node), old(Snapshot(gpu)), Snapshot(gpu))
      decreases node
    {
      ghost var s0 := Snapshot(gpu);
      LoadNodeMeshes(scene, node, files, gpu);
      assert node.meshIndices + Traversal.ChildrenOrder(node.children[..0]) == node.meshIndices;

      var c := 0;
      while c < |node.children|
        invariant 0 <= c <= |node.children|
        invariant Valid(gpu)
        invariant Progress(modelDirectory, files, scene, node.meshIndices + Traversal.ChildrenOrder(node.children[..c]),
                           s0, Snapshot(gpu))
      {
        ghost var s1 := Snapshot(gpu);
        LoadNode(scene, node.children[c], files, gpu);
        ChildProgress(modelDirectory, files, scene, node, c, s0, s1, Snapshot(gpu));
        c := c + 1;
      }
      assert node.children[..c] == node.children;
    }

    /** The first loop of `loadNode`: the node's own meshes, in mesh-index order, appended to `meshes`. */
    method LoadNodeMeshes(scene: Assimp.Scene, node: Assimp.Node, files: map<string, Image>, gpu: Gpu)
      requires Valid(gpu)
      requires Assimp.MeshesWellFormed(scene) && Assimp.NodeWellFormed(node, |scene.meshes|)
      modifies this`meshes, this`loadedTextures, gpu
      ensures Valid(gpu)
      ensures Progress(modelDirectory, files, scene, node.meshIndices, old(Snapshot(gpu)), Snapshot(gpu))
    {
      ghost var s0 := Snapshot(gpu);
      ProgressNone(modelDirectory, files, scene, s0);
      for i := 0 to |node.meshIndices|
        invariant Valid(gpu)
        invariant Progress(modelDirectory, files, scene, node.meshIndices[..i], s0, Snapshot(gpu))
      {
        ghost var s1 := Snapshot(gpu);
        AppendMesh(scene, node.meshIndices[i], files, gpu);
        NodeMeshProgress(modelDirectory, files, scene, node.meshIndices, i, s0, s1, Snapshot(gpu));
      }
      assert node.meshIndices[..|node.meshIndices|] == node.meshIndices;
    }

    /** The body of the first loop of `loadNode`: scene mesh `index` loaded and pushed onto `meshes`. */
    method AppendMesh(scene: Assimp.Scene, index: nat, files: map<string, Image>, gpu: Gpu)
      requires Valid(gpu)
      requires Assimp.MeshesWellFormed(scene) && index < |scene.meshes|
      modifies this`meshes, this`loadedTextures, gpu
      ensures Valid(gpu)
      ensures Progress(modelDirectory, files, scene, [index], old(Snapshot(gpu)), Snapshot(gpu))
    {
      ghost var s0 := Snapshot(gpu);
      var mesh := LoadMesh(scene, scene.meshes[index], files, gpu);
      MeshesUseCacheSnoc(meshes, mesh, s0.cache, loadedTextures);
      meshes := meshes + [mesh];
      MeshProgress(modelDirectory, files, scene, index, mesh, s0, Snapshot(gpu));
    }

    /**
     * `loadMesh`: one vertex per source vertex, the faces' indices flattened in
     * order, and the diffuse textures followed by the specular ones.
     */
    method LoadMesh(scene: Assimp.Scene, mesh: Assimp.Mesh, files: map<string, Image>, gpu: Gpu)
      returns (result: Mesh)
      requires Valid(gpu)
      requires Assimp.MeshWellFormed(mesh, |scene.materials|)
      modifies this`loadedTextures, gpu
      ensures Valid(gpu)
      ensures MeshFrom(result, mesh, scene.materials[mesh.materialIndex])
      ensures forall k :: 0 <= k < |result.textures| ==> result.textures[k] in loadedTextures
      ensures CacheGrew(old(loadedTextures), loadedTextures, MaterialSlots(scene.materials[mesh.materialIndex]))
      ensures LoadedOnce(modelDirectory, files, old(loadedTextures), loadedTextures,
                         old(gpu.generated), gpu.generated, old(gpu.uploads), gpu.uploads)
    {
      var vertices := ExtractVertices(mesh);
      var indices := ExtractIndices(mesh.faces);

      var textures: seq<Texture> := [];
      ghost var cache0, names0, uploads0 := loadedTextures, gpu.generated, gpu.uploads;
      if mesh.materialIndex >= 0 {
        var material := scene.materials[mesh.materialIndex];
        var diffuseMaps := LoadTexturesFromMaterial(material, Assimp.Diffuse, "diffuse", files, gpu);
        ghost var cache1, names1, uploads1 := loadedTextures, gpu.generated, gpu.uploads;
        var specularMaps := LoadTexturesFromMaterial(material, Assimp.Specular, "specular", files, gpu);
        textures := textures + diffuseMaps;
        assert textures == diffuseMaps;
        textures := textures + specularMaps;
        MaterialTextures(cache0, cache1, loadedTextures, diffuseMaps, specularMaps, material);
        LoadedOnceTrans(modelDirectory, files, cache0, cache1, loadedTextures, names0, names1, gpu.generated,
                        uploads0, uploads1, gpu.uploads);
        CacheGrewTrans(cache0, cache1, loadedTextures, Tagged(material.diffuse, "diffuse"),
                       Tagged(material.specular, "specular"));
      }
      result := Mesh(vertices, indices, textures);
    }

    /** The scan of `loadedTextures` for `path`: the first record with that path, if any. */
    method FindLoaded(path: string) returns (found: Option<Texture>)
      ensures found == Lookup(loadedTextures, path)
    {
      var j := 0;
      while j < |loadedTextures|
        invariant 0 <= j <= |loadedTextures|
        invariant forall k :: 0 <= k < j ==> loadedTextures[k].path != path
      {
        if loadedTextures[j].path == path {
          LookupAt(loadedTextures, path, j);
          return Some(loadedTextures[j]);
        }
        j := j + 1;
      }
      return None;
    }

    /**
     * `loadTexturesFromMaterial`: one record per slot of `kind`, in slot order.
     * A path already cached yields the cached record (its name and its type
     * tag); a new path is loaded once, and its record is appended to the cache.
     */
    method LoadTexturesFromMaterial(material: Assimp.Material, kind: Assimp.TextureType, typeName: string,
                                    files: map<string, Image>, gpu: Gpu)
      returns (textures: seq<Texture>)
      requires Valid(gpu)
      modifies this`loadedTextures, gpu
      ensures Valid(gpu)
      ensures Paths(textures) == material.Slots(kind)
      ensures SlotsLoaded(old(loadedTextures), loadedTextures, textures,
                          material.Slots(kind), |material.Slots(kind)|, typeName)
      ensures CacheGrew(old(loadedTextures), loadedTextures, Tagged(material.Slots(kind), typeName))
      ensures LoadedOnce(modelDirectory, files, old(loadedTextures), loadedTextures,
                         old(gpu.generated), gpu.generated, old(gpu.uploads), gpu.uploads)
    {
      textures := [];
      var slots := material.Slots(kind);
      ghost var cache0 := loadedTextures;
      ghost var names0 := gpu.generated;
      ghost var uploads0 := gpu.uploads;
      LoadedOnceNone(modelDirectory, files, cache0, names0, uploads0);
      for i := 0 to |slots|
        invariant Valid(gpu)
        invariant SlotsLoaded(cache0, loadedTextures, textures, slots, i, typeName)
        invariant LoadedOnce(modelDirectory, files, cache0, loadedTextures, names0, gpu.generated, uploads0, gpu.uploads)
      {
        var path := slots[i];
        ghost var cacheBefore := loadedTextures;
        ghost var texturesBefore := textures;
        var found := FindLoaded(path);
        if found.Some? {
          textures := textures + [found.value];
        } else {
          ghost var namesBefore := gpu.generated;
          ghost var uploadsBefore := gpu.uploads;
          var id := LoadTextureFromFile(path, files, gpu);
          var texture := Texture(id, typeName, path);
          textures := textures + [texture];
          loadedTextures := loadedTextures + [texture];
          CacheMiss(cache0, cacheBefore, names0, namesBefore, texture);
          MeshesUseCacheGrow(meshes, cacheBefore, texture);
          LoadedMiss(modelDirectory, files, cache0, cacheBefore, names0, namesBefore, uploads0, uploadsBefore, texture);
        }
        SlotStep(cache0, cacheBefore, loadedTextures, texturesBefore, textures[i], slots, i, typeName);
      }
      assert slots[..|slots|] == slots;
      SlotsLoadedGrew(cache0, loadedTextures, textures, slots, typeName);
    }

    /**
     * `loadTextureFromFile`: a fresh GPU name is generated first; the file is
     * read from the model directory, and only a decodable image is uploaded,
     * with the format its channel count selects.
     */
    method LoadTextureFromFile(fileName: string, files: map<string, Image>, gpu: Gpu) returns (id: nat)
      requires gpu.Valid()
      modifies gpu
      ensures gpu.Valid()
      ensures 0 < id && id !in old(gpu.generated) && gpu.generated == old(gpu.generated) + [id]
      ensures var full := FullTexturePath(modelDirectory, fileName);
        gpu.uploads == old(gpu.uploads) +
          (if full in files
           then [Upload(id, SelectFormat(files[full].channels), files[full].width, files[full].height)]
           else [])
    {
      id := gpu.GenTexture();
      var fullFilePath := modelDirectory + "/" + fileName;
      if fullFilePath in files {
        var image := files[fullFilePath];
        var format := SelectFormat(image.channels);
        gpu.TexImage2D(id, format, image);
      }
    }
  }
}
