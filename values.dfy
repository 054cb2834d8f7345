/** JSON values as the back end stores them and the front end receives them. */
module Values {

  /** A JSON value. Numbers are integers here: every count the system handles is whole. */
  datatype Json =
    | JNull
    | JBool(b: bool)
    | JNum(n: int)
    | JStr(s: string)
    | JArr(items: seq<Json>)
    | JObj(fields: map<string, Json>)

  /** JavaScript truthiness (`if (!data)`): empty arrays and objects are truthy. */
  predicate JsTruthy(j: Json) {
    match j
    case JNull => false
    case JBool(b) => b
    case JNum(n) => n != 0
    case JStr(s) => s != ""
    case JArr(_) => true
    case JObj(_) => true
  }

  /** Python truthiness (`if not value`): empty lists and dicts are falsy. */
  predicate PyTruthy(j: Json) {
    match j
    case JNull => false
    case JBool(b) => b
    case JNum(n) => n != 0
    case JStr(s) => s != ""
    case JArr(items) => items != []
    case JObj(fields) => fields != map[]
  }
}
