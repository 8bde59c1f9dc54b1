/** The search filter record shared by every revision of the query builders. */
module Models {

  /**
   * One filter criterion: `key` names the field (e.g. "modality"), `schema`
   * the predicate it is stored under, `selected` the accepted values, in the
   * order the client sent them.
   */
  datatype Filter = Filter(key: string, schema: string, selected: seq<string>)
}
