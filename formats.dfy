/** The input formats both entry points can dispatch to. */
module Formats {
  datatype Format = Csv | Excel | Json | Unsupported
}
