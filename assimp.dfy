/**
 * The scene graph as the external importer (Assimp) hands it to the model
 * loader after `ReadFile(path, aiProcess_Triangulate)` has succeeded. Only
 * the parts the loader reads are kept; floats are opaque values.
 */
module Assimp {
  import opened Wrappers

  /** aiVector3D: three opaque coordinates. */
  datatype Vector3D = Vector3D(x: real, y: real, z: real)

  /** aiFace: the vertex indices of one (triangulated) face. */
  datatype Face = Face(indices: seq<nat>)

  /** The two material texture slot kinds the loader asks for. */
  datatype TextureType = Diffuse | Specular

  /** aiMaterial: the file path of every texture slot, per slot kind, in slot order. */
  datatype Material = Material(diffuse: seq<string>, specular: seq<string>)
  {
    /** What `GetTextureCount(type)` and `GetTexture(type, i, &path)` enumerate. */
    function Slots(kind: TextureType): seq<string>
    {
      match kind
      case Diffuse => diffuse
      case Specular => specular
    }
  }

  /**
   * aiMesh: `vertices` holds `mNumVertices` positions; `normals` is `None`
   * when `mNormals` is null; `texCoords` is the first texture-coordinate
   * channel, `None` when `mTextureCoords[0]` is null.
   * `materialIndex` is unsigned in the importer, hence a `nat`.
   */
  datatype Mesh = Mesh(
    vertices: seq<Vector3D>,
    normals: Option<seq<Vector3D>>,
    texCoords: Option<seq<Vector3D>>,
    faces: seq<Face>,
    materialIndex: nat)

  /** aiNode: indices into the scene's mesh array, and child nodes in order. */
  datatype Node = Node(meshIndices: seq<nat>, children: seq<Node>)

  /** aiScene: the root node plus the mesh and material arrays it indexes. */
  datatype Scene = Scene(root: Node, meshes: seq<Mesh>, materials: seq<Material>)

  /**
   * The normals are present, and they and the texture coordinates, when
   * present, have one entry per vertex. The loader reads the normals without
   * a null test, so a mesh without them is outside what it handles.
   */
  predicate PerVertexArrays(m: Mesh)
  {
    && m.normals.Some? && |m.normals.value| == |m.vertices|
    && (m.texCoords.Some? ==> |m.texCoords.value| == |m.vertices|)
  }

  /** What the loader needs of one mesh: normals and per-vertex arrays as long as the vertex array, a material that exists. */
  predicate MeshWellFormed(m: Mesh, materialCount: nat)
  {
    PerVertexArrays(m) && m.materialIndex < materialCount
  }

  /** Every mesh index of the node and of all its descendants is in range. */
  predicate NodeWellFormed(n: Node, meshCount: nat)
    decreases n
  {
    && (forall i :: 0 <= i < |n.meshIndices| ==> n.meshIndices[i] < meshCount)
    && (forall i :: 0 <= i < |n.children| ==> NodeWellFormed(n.children[i], meshCount))
  }

  predicate MeshesWellFormed(s: Scene)
  {
    forall i :: 0 <= i < |s.meshes| ==> MeshWellFormed(s.meshes[i], |s.materials|)
  }

  /** A scene the importer returns: all the indices the loader follows are in range. */
  predicate WellFormed(s: Scene)
  {
    MeshesWellFormed(s) && NodeWellFormed(s.root, |s.meshes|)
  }
}
