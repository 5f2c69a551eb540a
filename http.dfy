/** The JSON responses the routes send, and the token payload they carry. */
module Http {
  import opened ProductSchema

  /** The payload a token carries: `{ user, role }`. */
  datatype Claims = Claims(user: string, role: string)

  datatype Body =
    | Error(error: string)
    | Message(message: string)
    | TokenIssued(token: string)
    | One(product: Product)
    | Many(products: seq<Product>)
    | Access(message: string, user: Claims)

  /** `res.status(status).json(body)`; `res.json(body)` alone sends status 200. */
  datatype Response = Response(status: nat, body: Body)
}
