/** The file-type bits of a `mode_t`, with the conventional Linux <sys/stat.h> values.
    A mode is a 32-bit unsigned word; the file type lives in the bits S_IFMT selects. */
module FileModes {

  /** Mask of the file-type bits (octal 0170000). */
  const S_IFMT: bv32 := 0xF000

  // The seven file types, as the int values get_type returns.
  const S_IFSOCK: int := 0xC000  // octal 0140000
  const S_IFLNK: int := 0xA000   // octal 0120000
  const S_IFREG: int := 0x8000   // octal 0100000
  const S_IFBLK: int := 0x6000   // octal 0060000
  const S_IFDIR: int := 0x4000   // octal 0040000
  const S_IFCHR: int := 0x2000   // octal 0020000
  const S_IFIFO: int := 0x1000   // octal 0010000

  const TWO_TO_32: int := 0x1_0000_0000

  /** `S_IFMT & mode`: the file-type field of a mode, as an unsigned number. */
  function FileTypeBits(mode: bv32): (t: int)
    ensures 0 <= t <= S_IFMT as int
    ensures t % 0x1000 == 0
  {
    (mode & S_IFMT) as int
  }

  /** `S_ISDIR(mode)`. */
  predicate IsDir(mode: bv32) {
    FileTypeBits(mode) == S_IFDIR
  }

  /** The C conversion `(unsigned) x` of an int to a 32-bit unsigned int: reduction
      modulo 2^32 (Dafny's % is Euclidean, so the result is never negative). */
  function AsUnsigned(x: int): (u: int)
    ensures 0 <= u < TWO_TO_32
    ensures 0 <= x < TWO_TO_32 ==> u == x
  {
    x % TWO_TO_32
  }

  /** A value is a file-type code when it is the type field of some mode: it lies in 32 bits
      and has no bit outside S_IFMT. */
  predicate IsFileTypeCode(t: int) {
    0 <= t < TWO_TO_32 && FileTypeBits(t as bv32) == t
  }
}
