/** The limits of kernel/param.h that more than one part of the model needs. */
module Params {

  /** The most blocks any file system operation may log. */
  const MAXOPBLOCKS: nat := 10

  /** The data blocks of the on-disk log. */
  const LOGBLOCKS: nat := MAXOPBLOCKS * 3

  /** The buffers of the block cache. */
  const NBUF: nat := MAXOPBLOCKS * 3
}
