/** One tokenised ADIF record: the tokenizer's map from lower-case tag name to the
    field's text. JavaScript reads a field as `adifQSO.tag`, which is `undefined` for an
    absent tag, and tests it for truthiness, which also rejects the empty string. */
module Adif {
  import opened Js

  type Record = map<string, string>

  /** `if (adifQSO.tag)`: the tag is present with a non-empty value. */
  predicate Truthy(rec: Record, tag: string) { tag in rec && rec[tag] != "" }

  /** `adifQSO.tag === value`. */
  predicate FieldIs(rec: Record, tag: string, value: string) { tag in rec && rec[tag] == value }

  /** `adifQSO.tag` as an optional string. */
  function Get(rec: Record, tag: string): (r: Option<string>)
    ensures r.Some? <==> tag in rec
    ensures r.Some? ==> r.value == rec[tag]
  {
    if tag in rec then Some(rec[tag]) else None
  }

  /** Every tag of the record is written without upper-case ASCII letters, as the
      tokenizer delivers them. */
  predicate LowerCaseTags(rec: Record)
  {
    forall tag :: tag in rec ==> forall i :: 0 <= i < |tag| ==> !('A' <= tag[i] <= 'Z')
  }
}
