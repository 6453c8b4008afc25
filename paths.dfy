/**
 * The path arithmetic of the loader: the model directory is the part of the
 * model path before its last '/', and a texture file is looked up as
 * `directory + "/" + fileName`.
 */
module ModelPaths {

  /** `std::string::npos`, the largest value of a 64-bit `size_t`. */
  const NPOS: nat := 0xFFFF_FFFF_FFFF_FFFF

  /** `s.find_last_of(c)` for a one-character set: the last position of `c`, or NPOS. */
  function FindLastOf(s: string, c: char): (pos: nat)
    ensures c in s ==> pos < |s| && s[pos] == c && c !in s[pos + 1..]
    ensures c !in s ==> pos == NPOS
  {
    if |s| == 0 then NPOS
    else if s[|s| - 1] == c then |s| - 1
    else
      var pos := FindLastOf(s[..|s| - 1], c);
      assert c in s[..|s| - 1] ==> s[pos + 1..] == s[..|s| - 1][pos + 1..] + [s[|s| - 1]];
      pos
  }

  /** `s.substr(pos, count)`: at most `count` characters from `pos`, clipped at the end. */
  function Substr(s: string, pos: nat, count: nat): (r: string)
    requires pos <= |s|
    ensures |r| <= count && pos + |r| <= |s| && r == s[pos..pos + |r|]
    ensures |r| == count || pos + |r| == |s|
    ensures count >= |s| - pos ==> r == s[pos..]
  {
    if count < |s| - pos then s[pos..pos + count] else s[pos..]
  }

  /** `path.substr(0, path.find_last_of("/"))`, the directory of the model file. */
  function DirectoryOf(path: string): (dir: string)
    requires |path| <= NPOS  // no std::string is longer than npos
    ensures '/' !in path ==> dir == path
    ensures '/' in path ==>
      |dir| < |path| && dir == path[..|dir|] && path[|dir|] == '/' && '/' !in path[|dir| + 1..]
  {
    Substr(path, 0, FindLastOf(path, '/'))
  }

  /** The path a texture file is read from. */
  function FullTexturePath(directory: string, fileName: string): string
  {
    directory + "/" + fileName
  }

  /** The directory of a texture path built from a '/'-free file name is the directory it was built from. */
  lemma DirectoryOfFullTexturePath(directory: string, fileName: string)
    requires '/' !in fileName
    requires |directory| + 1 + |fileName| <= NPOS
    ensures DirectoryOf(FullTexturePath(directory, fileName)) == directory
  {
    var full := FullTexturePath(directory, fileName);
    assert full[|directory|] == '/';
    assert full[|directory| + 1..] == fileName;
    var pos := FindLastOf(full, '/');
    assert pos == |directory|;
    assert full[..|directory|] == directory;
  }

  /** A model file inside a directory: its textures are looked up next to it. */
  lemma TextureBesideModel(directory: string, modelFile: string, textureFile: string)
    requires '/' !in modelFile
    requires |directory| + 1 + |modelFile| <= NPOS
    ensures FullTexturePath(DirectoryOf(directory + "/" + modelFile), textureFile)
         == directory + "/" + textureFile
  {
    DirectoryOfFullTexturePath(directory, modelFile);
  }
}
