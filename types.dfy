/** The records of src/types.ts, and the few JavaScript values the core
    inspects dynamically. */
module Types {

  /** A JavaScript value, as far as the core looks at its shape: the
      `http:auth/roles` claim of a user and the fields of an Auth0
      `appState` may hold anything at run time. */
  datatype JsValue =
    | Undefined
    | Null
    | Bool(b: bool)
    | Number(n: int)
    | Str(s: string)
    | Array(elements: seq<JsValue>)
    | Object(fields: map<string, JsValue>)

  /** ICategory */
  datatype Category = Category(
    id: int,
    name: string,
    slug: string,
    itemCount: int,
    summary: string,
    description: string)

  /** IInstrument */
  datatype Instrument = Instrument(
    id: int,
    categoryId: int,
    userId: string,
    name: string,
    summary: string,
    description: string,
    imageUrl: string)

  /** IUser; `roles` is the `http:auth/roles` claim, which the type says is
      an optional array of roles but which arrives from outside unchecked */
  datatype User = User(name: string, sub: string, roles: JsValue)
}
