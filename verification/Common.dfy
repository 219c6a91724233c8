/** What several of the modules share. */
module Common {

  datatype Option<T> = None | Some(value: T)

  ghost predicate Distinct<T>(s: seq<T>) { forall p, q :: 0 <= p < q < |s| ==> s[p] != s[q] }
}
