/**
 * The loader's output records (Vertex, Texture, Mesh) and the definitions
 * that say what a loaded mesh holds in terms of the scene mesh it came from.
 */
module MeshData {
  import opened Wrappers
  import Assimp

  /** glm::vec3 and glm::vec2: opaque float components. */
  datatype Vec3 = Vec3(x: real, y: real, z: real)
  datatype Vec2 = Vec2(x: real, y: real)

  datatype Vertex = Vertex(position: Vec3, normal: Vec3, textureCoordinates: Vec2)

  /** A texture record: the GPU name, the type tag ("diffuse", "specular") and the slot path, the cache key. */
  datatype Texture = Texture(id: nat, kind: string, path: string)

  datatype Mesh = Mesh(vertices: seq<Vertex>, indices: seq<nat>, textures: seq<Texture>)

  /** The paths of a list of texture records. */
  function Paths(ts: seq<Texture>): seq<string>
  {
    seq(|ts|, k requires 0 <= k < |ts| => ts[k].path)
  }

  lemma PathsConcat(a: seq<Texture>, b: seq<Texture>)
    ensures Paths(a + b) == Paths(a) + Paths(b)
  {
    assert forall k :: 0 <= k < |a + b| ==> Paths(a + b)[k] == (Paths(a) + Paths(b))[k];
  }

  lemma PathsSnoc(a: seq<Texture>, t: Texture)
    ensures Paths(a + [t]) == Paths(a) + [t.path]
  {
    PathsConcat(a, [t]);
  }

  /** The index lists of `faces`, concatenated in face order. */
  function FlattenFaces(faces: seq<Assimp.Face>): seq<nat>
  {
    if faces == [] then [] else FlattenFaces(faces[..|faces| - 1]) + faces[|faces| - 1].indices
  }

  /** The sum of `mNumIndices` over `faces`. */
  function IndexCount(faces: seq<Assimp.Face>): nat
  {
    if faces == [] then 0 else IndexCount(faces[..|faces| - 1]) + |faces[|faces| - 1].indices|
  }

  /** Every face has three indices, as `aiProcess_Triangulate` promises. */
  predicate Triangulated(faces: seq<Assimp.Face>)
  {
    forall i :: 0 <= i < |faces| ==> |faces[i].indices| == 3
  }

  /** Every index of every face names a vertex. */
  predicate FacesInBounds(faces: seq<Assimp.Face>, vertexCount: nat)
  {
    forall i, j :: 0 <= i < |faces| && 0 <= j < |faces[i].indices| ==> faces[i].indices[j] < vertexCount
  }

  lemma {:induction false} FlattenFacesLength(faces: seq<Assimp.Face>)
    ensures |FlattenFaces(faces)| == IndexCount(faces)
  {
    if faces != [] {
      FlattenFacesLength(faces[..|faces| - 1]);
    }
  }

  /** A triangulated face list yields three indices per face. */
  lemma {:induction false} TriangulatedIndexCount(faces: seq<Assimp.Face>)
    requires Triangulated(faces)
    ensures |FlattenFaces(faces)| == 3 * |faces|
  {
    if faces != [] {
      TriangulatedIndexCount(faces[..|faces| - 1]);
    }
  }

  /** The flattened index list names only vertices that the faces name: it stays within the vertex array. */
  lemma {:induction false} FlattenedIndicesInBounds(faces: seq<Assimp.Face>, vertexCount: nat)
    requires FacesInBounds(faces, vertexCount)
    ensures forall k :: 0 <= k < |FlattenFaces(faces)| ==> FlattenFaces(faces)[k] < vertexCount
  {
    if faces != [] {
      var init := faces[..|faces| - 1];
      assert FacesInBounds(init, vertexCount) by {
        forall i, j | 0 <= i < |init| && 0 <= j < |init[i].indices|
          ensures init[i].indices[j] < vertexCount
        {
          assert init[i] == faces[i];
        }
      }
      FlattenedIndicesInBounds(init, vertexCount);
      var last := faces[|faces| - 1].indices;
      forall k | 0 <= k < |FlattenFaces(faces)|
        ensures FlattenFaces(faces)[k] < vertexCount
      {
        if k >= |FlattenFaces(init)| {
          assert FlattenFaces(faces)[k] == last[k - |FlattenFaces(init)|];
        }
      }
    }
  }

  /**
   * Vertex `i` of `src` as the loader copies it: the position, the first
   * texture-coordinate channel or (0,0) when there is none, and the normal
   * with its source z written into y (the loader's own assignment). The
   * normal's z is never assigned, so nothing is said about it.
   */
  predicate VertexFrom(v: Vertex, src: Assimp.Mesh, i: nat)
    requires i < |src.vertices| && Assimp.PerVertexArrays(src)
  {
    var p, n := src.vertices[i], src.normals.value[i];
    && v.position == Vec3(p.x, p.y, p.z)
    && v.normal.x == n.x
    && v.normal.y == n.z
    && v.textureCoordinates ==
         match src.texCoords
         case Some(uv) => Vec2(uv[i].x, uv[i].y)
         case None => Vec2(0.0, 0.0)
  }

  /**
   * `m` is what the loader builds from scene mesh `src` with material `mat`:
   * one vertex per source vertex, the faces' indices in order, and one
   * texture per diffuse slot followed by one per specular slot.
   */
  predicate MeshFrom(m: Mesh, src: Assimp.Mesh, mat: Assimp.Material)
    requires Assimp.PerVertexArrays(src)
  {
    && |m.vertices| == |src.vertices|
    && (forall i :: 0 <= i < |src.vertices| ==> VertexFrom(m.vertices[i], src, i))
    && m.indices == FlattenFaces(src.faces)
    && Paths(m.textures) == mat.diffuse + mat.specular
  }

  /** `m` is what the loader builds from mesh number `index` of `scene`. */
  predicate MeshFromScene(m: Mesh, scene: Assimp.Scene, index: nat)
  {
    && index < |scene.meshes|
    && var src := scene.meshes[index];
    && Assimp.MeshWellFormed(src, |scene.materials|)
    && MeshFrom(m, src, scene.materials[src.materialIndex])
  }
}
