/**
 * The part of the device's file system the activity touches: a map from
 * absolute path to a directory or a file with its bytes and executable bit.
 */
module Storage {

  newtype Byte = x: int | 0 <= x < 256

  datatype Node = Dir | File(contents: seq<Byte>, executable: bool)

  type FileSystem = map<string, Node>

  /** `File(dir).mkdirs()`: creates `dir` unless something already exists there. */
  function MkDirs(fs: FileSystem, dir: string): (r: FileSystem)
    ensures dir in r
    ensures dir !in fs ==> r[dir] == Dir
    ensures forall p :: p in fs ==> p in r && r[p] == fs[p]
    ensures forall p :: p in r && p != dir ==> p in fs
  {
    if dir in fs then fs else fs[dir := Dir]
  }
}
