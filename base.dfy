/** Value types shared by every part of the consumer model. */
module Base {
  datatype Option<T> = None | Some(value: T)

  datatype Result<T, E> = Success(value: T) | Failure(error: E)

  /** A file-system path, as the consumer receives it from os.scandir. */
  type Path = string

  /** Raw file contents. */
  type Bytes = seq<bv8>

  /** A point in time. File mtimes, dates found in file names and dates
      reported by parsers are all of this type. */
  type Time = int

  /** The hexadecimal content digest stored with every document. */
  type Checksum = string

  /** The opaque correlation token that uuid4() supplies for one consumption. */
  type Token = nat

  /** A tag, identified by its slug. */
  datatype Tag = Tag(slug: string)
}
