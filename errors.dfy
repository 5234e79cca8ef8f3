/** The exceptions the staging layer raises, one constructor each. */
module Errors {
  import opened Paths

  datatype Error =
    /** ValueError: an item of a path list is neither a string nor a path. */
    | NotPathOrStr
    /** ValueError: two items of a path list have the same base name. */
    | DuplicatePathName
    /** ValueError: no load script, and these suffixes cannot be imported. */
    | UnsupportedSuffixes(suffixes: set<string>)
    /** FileNotFoundError. */
    | FileNotFound(path: Path)
    /** IsADirectoryError: reading a directory as text. */
    | IsADirectory(path: Path)
    /** ValueError: a staged file would replace an entry already staged. */
    | DuplicateEntry(key: Key)
    /** ValueError: queries are neither a list nor a dict. */
    | NotListOrDict
    /** ValueError: a single result was expected. */
    | NotExactlyOne(count: nat)
    /** KeyError: the answers hold no query 0. */
    | MissingQueryZero
    /** ValueError: a query for a subject found nothing. */
    | EmptyResult
    /** click.UsageError. */
    | Usage(message: string)
}
