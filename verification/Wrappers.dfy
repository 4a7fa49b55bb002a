/** What every table of the model uses: the nullable column, and how a transaction can end. */
module Wrappers {

  datatype Option<+T> = None | Some(value: T)

  /** What became of one transaction: it committed; it committed but the caller only saw an
      error; it rolled back. */
  datatype Db = Commits | ReplyLost | Aborts
}
