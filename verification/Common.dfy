/** Types shared by the models of the two bundle APIs. */
module Common {

  datatype Option<+T> = None | Some(value: T)

  datatype Result<+T, +E> = Ok(value: T) | Err(error: E)

  newtype byte = x: int | 0 <= x < 256

  type Bytes = seq<byte>

  /** One file of a zip archive. An archive is the sequence of its entries. */
  datatype Entry = Entry(name: string, data: Bytes)

  /** A file of an input archive; without content it cannot be read. */
  datatype ZipFile = ZipFile(name: string, content: Option<Bytes>)

  /** Bundle statuses, in the order of the source's enumeration. */
  datatype Status = Unknown | Started | InProgress | Done | Canceled | Deleted | Failed

  /** A status that will not change any more. */
  predicate IsFinished(s: Status) {
    s == Done || s == Deleted || s == Canceled || s == Failed
  }
}
