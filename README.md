# Model import bookkeeping of an OpenGL model viewer

This project models the part of the viewer's `Model` class that turns a scene
graph, already parsed by the Assimp importer, into a flat list of meshes. It
also models how that class deduplicates textures by path. Dafny proves the
model's properties.

The `Model` object keeps three members, updated in place:

- `meshes`: the flat mesh list;
- `modelDirectory`: the directory texture files are read from;
- `loadedTextures`: the texture cache, a list searched front to back by path.

The model is imperative where the source is. `ModelLoader.Model` is a class
with those three fields, and each of its methods states the object's new state.

- `Load` leaves the model as it was when the importer returns no scene.
  Otherwise it sets the directory and hands the root node to `LoadNode`.
- `LoadNode` walks the graph in pre-order, depth first. It appends a node's own
  meshes, in the order of its mesh-index list, before the subtrees of its
  children, left to right. `Traversal.MeshOrder` is that order. It is proved
  equal to the concatenated mesh lists of the pre-order node sequence.
- `LoadMesh` copies one vertex per source vertex and flattens the face index
  lists in order. Its texture list is the diffuse records followed by the
  specular records.
- `LoadTexturesFromMaterial` scans the cache for each slot path. A hit returns
  the cached record unchanged, including its type tag and GPU name. A miss
  loads the file, then appends the new record to the result and to the cache.
  The object invariant `Valid` says the cache holds one record per path, each
  with its own GPU name, and that every mesh texture is a cached record.
- Every loading method, up to `Load` itself, states which records it added
  to the cache (`CacheGrew`). The texture slots of the meshes it loaded, in
  load order, are `SceneSlots`: per mesh, the diffuse paths tagged "diffuse",
  then the specular paths tagged "specular". The records added are `NewSlots`
  of those slots: one per path not cached before, in order of first
  appearance, tagged as at that first slot. `AddedFromScene` draws the
  consequence: nothing the scene's materials do not name is loaded.
- Every loading method also states what it did to the GPU
  (`LoadedOnce`). Each record it appended to the cache carries the next name
  generated, no other name is generated, and the uploads are exactly those of
  the appended records whose files decode, in order. `NewUploadsOnce` draws the
  consequence: one load never uploads to a name twice, and never uploads more
  images than it added paths.
- `LoadTextureFromFile` first generates a GPU name. It then reads
  `modelDirectory + "/" + fileName` and uploads the image only when it decodes.
  The pixel format comes from three independent channel-count tests with no
  default.

The importer's output is a parameter: `Option<Assimp.Scene>`, where `None`
stands for a null scene. The image files are a parameter too: a map from full
path to decoded image, where an absent path means `stbi_load` failed. Texture
upload is the `Gl.Gpu` object. It hands out fresh non-zero names and logs each
`glTexImage2D` call.

The model keeps these behaviours of the code as they are:

- Line 82 of `src/Model.cpp` writes the source normal's z into `normal.y`, and
  `normal.z` is never assigned. `ExtractVertices` does the same, starting from a
  vertex whose fields are arbitrary. `VertexFrom` therefore says `normal.y` is
  the source z and says nothing about `normal.z`.
- A failed import leaves the model unchanged. It does not empty it: meshes from
  an earlier successful `load` stay.
- A texture that fails to decode still gets a freshly generated GPU name, and
  that name goes into the cache and the mesh. Only the upload is skipped.
- An image with a channel count other than 1, 3 or 4 is uploaded with an
  unassigned format (`None`).
- Nothing in the code checks that face indices are in range. The index-bounds
  property is proved under the assumption that the scene's faces are in range
  (`FacesInBounds`).
- The material guard at line 98 compares an unsigned index with 0, so it always
  holds. The material index is a `nat`, and the branch always runs.

## Model

| member | source | states |
|---|---|---|
| ModelPaths.FindLastOf | src/Model.cpp:36 | `find_last_of('/')` gives the position of the last '/', with no '/' after it, or `npos` when the path has no '/' |
| ModelPaths.Substr | src/Model.cpp:36 | `substr(pos, count)` gives the characters from `pos`: exactly `count` of them, or all the rest when fewer remain |
| ModelPaths.DirectoryOf | src/Model.cpp:36 | the model directory is the prefix of the path before its last '/'; a path without '/' is kept whole |
| ModelPaths.DirectoryOfFullTexturePath | src/Model.cpp:149 | the directory of `dir + "/" + fileName` is `dir` when `fileName` has no '/' (the directory split and the texture path are inverse) |
| ModelPaths.TextureBesideModel | src/Model.cpp:149 | the textures of a model at `dir/file` are read from `dir/texture` |
| Gl.SelectFormat | src/Model.cpp:156-162 | 1 channel selects red, 3 select RGB and 4 select RGBA, in both directions; any other count leaves the format unassigned |
| Gl.SelectFormatInverse | src/Model.cpp:157-162 | a format is selected exactly for the channel count it stands for |
| Gl.Gpu.GenTexture | src/Model.cpp:145-146 | `glGenTextures` returns a non-zero name never handed out before and records it |
| Gl.Gpu.TexImage2D | src/Model.cpp:164-165 | an upload is logged with its texture name, format and size; no name is generated |
| Traversal.MeshOrderIsPreOrder | src/Model.cpp:42-55 | the meshes of a subtree come in the order of the concatenated mesh-index lists of its nodes in pre-order |
| Traversal.MeshOrderCount | src/Model.cpp:44-54 | the number of meshes a subtree yields is the sum of `mNumMeshes` over its reachable nodes |
| Traversal.MeshOrderInRange | src/Model.cpp:46 | in a well-formed scene every mesh index the walk follows is in range |
| MeshData.FlattenFacesLength | src/Model.cpp:87-95 | the index list is as long as the sum of the faces' `mNumIndices` |
| MeshData.TriangulatedIndexCount | src/Model.cpp:87-95 | triangulated faces yield three indices per face |
| MeshData.FlattenedIndicesInBounds | src/Model.cpp:87-95 | when every face index names a vertex, so does every entry of the flattened list |
| TextureCache.Lookup | src/Model.cpp:120-128 | the scan finds a cached record with the path, or finds none exactly when no cached path matches |
| TextureCache.LookupAt | src/Model.cpp:120-127 | the scan stops at the first index whose path matches |
| TextureCache.LookupExtend | src/Model.cpp:120-136 | appending to the cache does not change what an earlier hit finds |
| TextureCache.LookupAppendMiss | src/Model.cpp:129-137 | after a miss, the record appended to the cache is what the scan finds for that path |
| TextureCache.LookupUnique | src/Model.cpp:119-137 | in a cache with distinct paths, each record is the one its path finds |
| TextureCache.SamePathSameRecord | src/Model.cpp:119-137 | two cached records with the same path are the same record |
| TextureCache.NewPathsFresh | src/Model.cpp:114-138 | the paths a material adds to the cache are pairwise distinct and new; every slot path ends up cached |
| TextureCache.NewPathsAllKnown | src/Model.cpp:119-128 | when every slot path is cached already, the slots add no new path |
| TextureCache.NewSlotsTagged | src/Model.cpp:114-138 | for slots of one type, the records added are the new paths, each tagged with that type |
| TextureCache.NewSlotsAppend | src/Model.cpp:101-102 | two runs of slots loaded in a row add what the first adds, then what the second adds to the cache the first left |
| TextureCache.NewSlotsFrom | src/Model.cpp:114-138 | every record added comes from a slot, with a path not cached before, and no path is added twice |
| ModelLoader.CacheMiss | src/Model.cpp:129-137 | a miss keeps the cache one record per path and per GPU name, and keeps the names in generation order |
| ModelLoader.SlotStep | src/Model.cpp:116-137 | one slot, hit or miss, extends the result by one record for its path and keeps the cache in step with the new paths |
| ModelLoader.MaterialTextures | src/Model.cpp:97-106 | the diffuse records followed by the specular records give one cached record per slot, in slot order |
| ModelLoader.LoadedMiss | src/Model.cpp:129-137 | a miss adds one record to the cache, the one name generated for it, and its upload when its file decodes |
| ModelLoader.AllCachedLoadsNothing | src/Model.cpp:119-128 | when every slot path of a material type is cached already, loading it leaves the cache, the generated names and the uploads as they were |
| ModelLoader.SlotsLoadedGrew | src/Model.cpp:114-138 | loading all slots of one type grows the cache by exactly the new paths, tagged with that type |
| ModelLoader.CacheGrewTrans | src/Model.cpp:101-102 | two runs of slots loaded in a row grow the cache as the two runs together |
| ModelLoader.AddedFromScene | src/Model.cpp:42-141 | every record a load adds has the path and type tag of a slot of the meshes it loaded, and a path not cached before |
| ModelLoader.ProgressTrans | src/Model.cpp:42-55 | loading the meshes of one order and then of another appends meshes, grows the cache, generates names and uploads as loading both orders in a row |
| ModelLoader.MeshProgress | src/Model.cpp:46-47 | one loaded and appended mesh is the load of that one mesh index: its mesh, its material's slots, their names and uploads |
| ModelLoader.NodeMeshProgress | src/Model.cpp:44-48 | one more pass of the first loop of `loadNode` extends the load to the next mesh index |
| ModelLoader.ChildProgress | src/Model.cpp:51-54 | one more pass of the second loop of `loadNode` extends the load by the next child's subtree |
| ModelLoader.SharedTextureSceneLoads | src/Model.cpp:97-141 | a material naming one file as both its diffuse and its specular map loads that file once, tagged "diffuse", with one name and at most one upload |
| ModelLoader.LoadedOnceTrans | src/Model.cpp:101-102 | two loads in a row (the diffuse slots, then the specular ones; one mesh, then the next) generate and upload as one load of all the records they added |
| ModelLoader.UploadsOfAppend | src/Model.cpp:116-138 | the uploads for two runs of added records are the uploads of the first run followed by those of the second |
| ModelLoader.UploadsOfNames | src/Model.cpp:143-180 | loading records uploads at most once per record, each time under that record's own name, and never twice under one name when the names are distinct |
| ModelLoader.NewUploadsOnce | src/Model.cpp:111-180 | over one load into a valid cache: at most one upload per path added, no name uploaded to twice, and every uploaded name generated during that load |
| ModelLoader.SharedTexture | src/Model.cpp:119-137 | two mesh texture references with the same path are the same record and carry the same GPU name |
| ModelLoader.LoadedIndicesInBounds | src/Model.cpp:87-95 | the indices of a loaded mesh name its own vertices whenever the scene's faces name vertices |
| ModelLoader.LoadedIndexCount | src/Model.cpp:87-95 | a loaded mesh of a triangulated scene mesh has 3 × face-count indices |
| ModelLoader.TriangleSceneLoads | src/Model.cpp:57-108 | loading one untextured triangle yields one mesh with 3 vertices at texture coordinate (0,0), indices 0, 1, 2 and no textures |
| ModelLoader.ExtractVertices | src/Model.cpp:59-85 | one vertex per source vertex: its position, its first-channel texture coordinate or (0,0) without one, the normal's x, and the source z in `normal.y` |
| ModelLoader.ExtractIndices | src/Model.cpp:87-95 | the index list is every face's indices, face after face |
| ModelLoader.Model.constructor | src/Model.cpp:9-10 | a new model has no meshes, no directory and an empty cache |
| ModelLoader.Model.FromFile | src/Model.cpp:12-15 | constructing from a path is an empty model followed by `Load`: the meshes of the scene in traversal order, a cache of exactly the scene's new slots, their names and their uploads |
| ModelLoader.Model.Draw | src/Model.cpp:17-23 | the sequence of meshes drawn is the mesh list itself: each mesh once, in list order |
| ModelLoader.Model.Load | src/Model.cpp:25-40 | a null scene changes neither the model nor the GPU; a parsed scene sets the directory, appends the meshes in traversal order, grows the cache by exactly the new slots of those meshes, and generates names and uploads only for the records it adds |
| ModelLoader.Model.LoadNode | src/Model.cpp:42-55 | the meshes already present are unchanged, and one mesh per entry of the pre-order mesh order is appended, each built from that scene mesh; the cache grows by exactly the new slots of those meshes, with names and uploads only for the records added |
| ModelLoader.Model.LoadNodeMeshes | src/Model.cpp:44-48 | the node's own meshes are appended in mesh-index order, each built from its scene mesh; the cache grows by exactly their new slots, with names and uploads only for the records added |
| ModelLoader.Model.AppendMesh | src/Model.cpp:46-47 | one pass of the first loop of `loadNode`: the scene mesh loaded and pushed onto the mesh list, the cache grown by exactly its material's new slots, with names and uploads only for the records added |
| ModelLoader.Model.LoadMesh | src/Model.cpp:57-109 | the mesh holds the copied vertices, the flattened indices, and one cached texture per diffuse slot followed by one per specular slot; the cache grows by exactly the material's new slots (diffuse before specular, each tagged with its type), with names and uploads only for the records added |
| ModelLoader.Model.LoadTexturesFromMaterial | src/Model.cpp:111-141 | one record per slot in slot order. A hit returns the earlier cached record and touches the GPU not at all. Misses append each new path once, tagged with `typeName` and carrying the name generated for it, and upload its image when it decodes. The cache grows by exactly those records and stays one record per path |
| ModelLoader.Model.FindLoaded | src/Model.cpp:119-128 | the scan of the cache for a path stops at the first record with that path, and finds none exactly when no cached path matches |
| ModelLoader.Model.LoadTextureFromFile | src/Model.cpp:143-180 | a fresh name is always generated; the image at `modelDirectory + "/" + fileName` is uploaded with its selected format exactly when it decodes |

## Left out

- `src/Renderer.cpp` (window, render loop, camera, input, matrices) and `include/Shader.h` are not part of this model: they are platform I/O and floating-point work.
- The `Mesh` class (`Mesh.cpp`: GPU buffer setup and `Mesh::Draw`'s texture-unit binding) is not part of this model; `Draw` records only which mesh is drawn in which order.
- Assimp's `ReadFile` and its triangulation step are not modelled; their result is a parameter. That the mesh and material indices are in range, that the normals are present, and that the normals and the texture-coordinate channel are as long as the vertex array, is a precondition (`Assimp.WellFormed`).
- A mesh without normals is excluded: `Assimp.PerVertexArrays` requires `normals` to be present. The importer may leave `mNormals` null, and on such a mesh lines 80-82 of `src/Model.cpp` dereference a null pointer; that crash is not modelled.
- `stbi_load` is a lookup in the `files` parameter; `stbi_image_free`, `glBindTexture`, `glGenerateMipmap` and the four `glTexParameteri` calls (including `GL_LINEAR` written to `WRAP_S`) are GL state the model does not track.
- Console output is not modelled.
- Floats are `real` stand-ins that are only copied; no arithmetic is done on them.
- Integer widths: loop counters, `unsigned int` indices and the `int` returned for a texture name are unbounded in the model; no count in a scene comes near 2^31.
- ModelLoader.Model.LoadTexturesFromMaterial: paths are compared by string equality; `strcmp` would also stop at an embedded NUL character, which the model does not represent.
- ModelLoader.ExtractVertices: the normal's z is left arbitrary, so nothing is proved about it; the source leaves it uninitialised.
