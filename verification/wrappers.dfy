/** An optional value, for the price columns: a bar either records a price
    there or leaves the entry empty (NaN in the dashboard's data frame). */
module Wrappers {

  datatype Option<+T> = None | Some(value: T)
}
