/** The usual optional-value wrapper, used for JavaScript fields that may be
    missing (`undefined`/`null`) and for lookups that may find nothing. */
module Options {

  datatype Option<+T> = None | Some(value: T)

}
