/** The Python exceptions the core raises, as values: a failing operation returns one of these. */
module Errors {
  datatype PyError =
    | ValueError
    | TypeError
    | AttributeError
    | KeyError
    | IndexError
    | NotImplementedError
    | UniquenessError
    | AssertionError
    | FileNotFoundError
}
