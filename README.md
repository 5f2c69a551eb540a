# TALØ admin backend: a Dafny model

This project models the decision logic of a small Express/Mongoose admin backend
for a clothing shop. The backend has one administrator account, which logs in for
a bearer token. It stores `Product` records, and anyone may read them. Only a
request carrying a valid token may create, update or delete them. Promotions are
products whose `promo` text is not empty.

The model has these parts:

- `Js` (`js.dfy`): the JavaScript semantics the handlers rely on.
  - A request-body field is missing, `null`, or a value.
  - String truthiness and loose `== null`.
  - `x || default`.
  - `String.prototype.trim`, over the white space of ECMA-262.
  - `split(' ')`, together with its inverse `join`.
- `JsNumber` (`js_number.dfy`): the global `parseInt` of ECMA-262 called without
  a radix, and the decimal text `String(n)` of an integer.
- `ProductSchema` (`schema.dfy`): the `Product` schema of `models/Product.js`.
  - The record itself.
  - Its defaults and the `trim` setters.
  - The validators `required` and `min: 0`, as the predicates `Accepts` (on the
    supplied values) and `Valid` (on a stored record).
- `Http` (`http.dfy`): status codes and response bodies.
- `Auth` (`auth.dfy`):
  - the `verifyJWT` middleware, as a gate that refuses with 401 or admits the
    request with the token's claims;
  - the protected test route;
  - the `/login` decision.

  Token signing and verification, and the bcrypt comparison, are function
  parameters.
- `Queries` (`queries.dfy`): `find` over the collection and the
  `sort({ fechaCreacion: -1 })` of the list routes.
- `Catalog` (`catalog.dfy`): the product and promotion routes.
  - The Mongo collection is a `Store`: a map from id to record, plus the next
    free id.
  - Each route is specified by a function on the `Store`. The function gives the
    response and the new collection.
  - `Consistent` is the invariant every route keeps. Each record sits under its
    own id, ids not yet handed out are free, and every record passes the
    schema's validators.
  - `class Server` holds the collection in fields. It runs each protected
    route as a method that calls `verifyJWT`, then the handler, and each such
    method is proved equal to the route's function. The public routes
    (`GET /api/products`, `GET /api/products/:id`, `GET /api/promociones`)
    call no gate; the two lists are specified by what they contain and in
    which order, and the single fetch by `Catalog.Get`.

Three details of the code that decide some answers:

- Called without a radix, `parseInt` honours a "0x" or "0X" prefix, so a `promo`
  of "0x1A" is stored as "26".
- An empty `Authorization` header counts as a missing one (`!authHeader`).
- `findByIdAndUpdate` runs its validators before the lookup, so an invalid
  update of an unknown id answers 500.

## Model

| member | source | states |
|---|---|---|
| Js.Truthy | server.js:56 | A string field is truthy (`!x` is false) exactly when it holds a non-empty string |
| Js.IsNullish | server.js:145 | `x == null` holds of both a missing field and `null` |
| Js.StringOr | server.js:151 | The fallback to a default on text: the field's text whenever it is truthy, and `d` whenever it is not, so a non-empty default never gives an empty result |
| Js.ArrayOr | server.js:153-155 | The fallback to `[]` on an array: the array whenever one was sent, the empty one included, otherwise the default |
| Js.TrimStart | models/Product.js:6-10 | The result is a suffix of the input, everything dropped is white space, and the result does not start with white space |
| Js.TrimEnd | models/Product.js:6-10 | The result is a prefix of the input, everything dropped is white space, and the result does not end with white space |
| Js.Trim | models/Product.js:36-40 | The `trim: true` setter: the result is a slice of the input, only white space is cut from either end, and the result is trimmed |
| Js.TrimOfTrimmed | models/Product.js:6-10 | Trimming a string that is already trimmed leaves it unchanged |
| Js.TrimIdempotent | models/Product.js:36-40 | Trimming twice gives the same as trimming once |
| Js.TrimStartSkipsWhiteSpace | server.js:244 | Leading white space does not change what is left after `trimStart` (proved by induction) |
| Js.Split | server.js:87 | `split(' ')` gives at least one piece, and no piece contains the separator |
| Js.JoinSplit | server.js:87 | Joining the pieces of `split` gives back the header (proved by induction) |
| Js.SplitPrefix | server.js:87 | A prefix free of the separator sticks to the first piece of what follows it |
| Js.SplitJoin | server.js:87-88 | Splitting pieces free of the separator, once joined, gives back exactly those pieces (proved by induction) |
| JsNumber.DigitValue | server.js:244 | A character's digit value is at most 36, and below 10 exactly for the decimal digits |
| JsNumber.DigitPrefix | server.js:244 | The longest run of digits at the front of the text: a prefix made of digits, followed by a non-digit or the end |
| JsNumber.ParseInt | server.js:244 | `parseInt(s)` reads the number after the leading white space; a negative result only comes from a minus sign in the text |
| JsNumber.ParseNumber | server.js:244 | After the white space: an optional sign, a radix chosen by the "0x" prefix, and the longest digit run, NaN when it is empty; a negative result only comes from a leading minus sign |
| JsNumber.ParseIntNaN | server.js:244-247 | `parseInt` gives NaN exactly when, after white space and sign, there is no decimal digit, or a hex prefix with no hex digit after it |
| JsNumber.ParseIntSkipsWhiteSpace | server.js:244 | Leading white space does not change what `parseInt` reads |
| JsNumber.ParseIntOfDigit | server.js:244 | Text that starts with a digit has no white space and no sign to skip |
| JsNumber.ParseIntIgnoresTrailingText | server.js:244 | Text after the leading decimal digits is ignored ("15% OFF" reads as 15) |
| JsNumber.ParseIntOfHexPrefix | server.js:244 | After "0x" or "0X", `parseInt` reads the hex digits that follow, or gives NaN when there are none |
| JsNumber.ParseIntHonoursHexPrefix | server.js:244 | "0x" or "0X" followed by hex digits reads in radix 16 ("0x1A" is 26), whatever follows them |
| JsNumber.ParseIntOfWord | server.js:244-247 | "abc" is NaN, so a word as `promo` is refused with 400 |
| JsNumber.DigitPrefixStops | server.js:244 | The digit run stops at the first non-digit (proved by induction) |
| JsNumber.NatToDecimal | server.js:256 | The decimal text of a natural number is a non-empty string of digits without a leading zero |
| JsNumber.IntToString | server.js:256 | `String(n)` of an integer is never empty |
| JsNumber.DecimalValue | server.js:256 | The digits of `String(n)` denote `n` (proved by induction) |
| JsNumber.DigitPrefixOfDigits | server.js:256 | A string made only of digits is its own digit run (proved by induction) |
| JsNumber.ParseIntOfIntToString | server.js:244-256 | The stored `promo` text `String(n)` reads back as `n` under `parseInt`: the round trip of the promotion percentage |
| ProductSchema.Valid | models/Product.js:5-40 | A stored record has a non-empty, trimmed `nombre` and `categoria` and a `precio` of at least 0 |
| ProductSchema.Accepts | models/Product.js:5-40 | The validators accept supplied values when `nombre` and `categoria` are non-empty after `trim` and `precio` is at least 0 |
| ProductSchema.New | models/Product.js:5-44 | `new Product(...)` stores the id and the creation stamp given, the price as supplied, `trim` of `nombre` and `categoria`, and each optional field as supplied or else its schema default |
| ProductSchema.Replace | server.js:180-184 | An update keeps the id and the creation stamp, takes the new price and `trim` of the new `nombre` and `categoria`, and replaces each optional field that is supplied while keeping the stored value of each that is not |
| ProductSchema.NewValid | models/Product.js:5-40 | A new record passes the validators (`required`, `min: 0`, after `trim`) exactly when the supplied values pass them |
| ProductSchema.ReplaceValid | server.js:180-184 | With `runValidators`, an updated record is valid exactly when the supplied values pass the validators |
| ProductSchema.NewDefaults | models/Product.js:11-35 | Fields left out default to an empty `descripcion`, empty `imagenes`, `colores` and `tallas`, and an empty `promo` |
| ProductSchema.NewKeepsTrimmedText | models/Product.js:6-10 | Text that is already trimmed is stored as given |
| Auth.BearerToken | server.js:87-92 | A token is found only when the header is exactly "Bearer", one space and a token without spaces |
| Auth.BearerTokenAccepts | server.js:87-92 | Every header "Bearer <token>" with no further space yields exactly that token, so with `BearerToken` this is an if-and-only-if |
| Auth.BearerTokenRefuses | server.js:87-90 | A lower-case "bearer" and a double space are refused |
| Auth.VerifyJwt | server.js:81-100 | A missing or empty header gets 401 "Falta token de autorización.", and a malformed one 401 "Formato de token inválido." whatever the verifier says. The request is admitted exactly when the verifier accepts the header's token, and then with its claims. Every refusal is 401 |
| Auth.VerifyJwtOfBearer | server.js:92-99 | A well-formed header is admitted with the verifier's claims, or refused with 401 "Token inválido o expirado." |
| Auth.TestRoute | server.js:105-107 | `/api/test` answers 200 exactly when the gate admits, with the claims stored in `req.user`; a refused request gets the gate's 401 response |
| Auth.Login | server.js:53-76 | 400 "Faltan credenciales." exactly when a credential is falsy, and 401 always with the same body. 200 exactly when the user is the administrator and the password matches the hash, and then the token is signed for `{user, role: 'admin'}` |
| Auth.LoginDoesNotTellWhichCheckFailed | server.js:60-67 | A wrong user name and a wrong password get the identical 401 response, and the password is not looked at for a wrong user name |
| Queries.Matches | server.js:221 | The filter `{ promo: { $exists: true, $ne: "" } }` of the promotions list: a record matches when its `promo` is not empty; `find()` matches every record |
| Queries.Find | server.js:116 | Every record that matches the filter is found, only such records, each under its own id, and in ascending id order |
| Queries.InsertByDate | server.js:116 | Inserting into a newest-first sequence keeps it newest first and adds exactly one copy of the record |
| Queries.NewestFirstBelow | server.js:116 | In a newest-first sequence no record is newer than the first |
| Queries.Prepend | server.js:116 | A record no older than everything in a newest-first sequence can go in front |
| Queries.InsertedFrom | server.js:116 | Every record of an insertion comes from the sequence or is the inserted one |
| Queries.InsertKeepsIdsDistinct | server.js:116 | Inserting a record whose id is new keeps ids distinct (proved by induction) |
| Queries.PrependKeepsIdsDistinct | server.js:116 | Putting a record with a new id in front keeps ids distinct |
| Queries.SortByDate | server.js:116 | `sort({ fechaCreacion: -1 })`: the result is newest first and a permutation of the input |
| Queries.SortKeepsIdsDistinct | server.js:116 | Sorting keeps the ids distinct (proved by induction) |
| Catalog.HasProductFields | server.js:145-147 | The field check of create and update: `nombre` and `categoria` truthy and `precio` neither missing nor `null` (so 0 passes) |
| Catalog.HasPromoFields | server.js:240-242 | The field check of a promotion: `nombre` and `promo` truthy and `precio` neither missing nor `null` |
| Catalog.CreateFields | server.js:149-158 | The object a create builds: the required fields as sent, and every optional field supplied (as sent, or its fallback default), so the schema defaults never apply |
| Catalog.UpdateFields | server.js:180-184 | The update sent: the required fields as sent, and an optional field exactly when the body has it |
| Catalog.PromoFields | server.js:249-259 | The object a promotion builds: `nombre` and `precio` as sent, `promo` the text of the parsed integer, `descripcion` as sent when truthy or "", each array as sent or `[]`, and `categoria` as sent when truthy or "promociones", so never empty |
| Catalog.Consistent | models/Product.js:5-41 | The collection invariant every route keeps: each record sits under its own id, ids still to be handed out are free, and every record passes the schema's validators |
| Catalog.AddKeepsConsistent | server.js:160 | The next id is free, and saving a valid record under it keeps the collection consistent |
| Catalog.ReplaceKeepsConsistent | server.js:180-184 | Putting a valid record in place of a stored one under the same id keeps the collection consistent |
| Catalog.List | server.js:114-122 | `GET /api/products` and `GET /api/promociones` answer each matching record exactly once and no other, newest first |
| Catalog.Get | server.js:125-136 | `GET /api/products/:id` answers 200 with the record exactly when the id is stored, and otherwise 404 "Producto no encontrado." |
| Catalog.Create | server.js:139-166 | 400 exactly when `nombre`, `precio` or `categoria` is missing (a price of 0 passes). 201 exactly when the validators accept the values, and then one record with the defaults is added under a fresh id and nothing else changes. Otherwise 500 "Error al crear producto.". Any answer but 201 leaves the collection unchanged. The collection stays consistent |
| Catalog.Update | server.js:169-195 | 400 for missing fields, then 500 when the validators refuse, then 404 for an unknown id, each as an if-and-only-if and each leaving the collection unchanged. The only other answer is 200, and then only the record under the id is replaced, keeping its id and stamp. The collection stays consistent |
| Catalog.Delete | server.js:198-212 | 404 and no change for an unknown id. Otherwise "Producto eliminado correctamente." and exactly that id is removed |
| Catalog.CreatePromotion | server.js:234-267 | 400 exactly when `nombre`, `precio` or `promo` is missing or `parseInt(promo)` is NaN, each with its own message. 201 exactly when those checks pass and the validators accept the values, and then one record is added whose `promo` is the parsed integer as text and whose category defaults to "promociones". Any other answer leaves the collection unchanged |
| Catalog.CreateThenGet | server.js:149-161 | A created record is then found under the id the response carries |
| Catalog.DeleteTwice | server.js:201-207 | After a delete, both fetching the id and deleting it again answer 404 |
| Catalog.CreatedRecord | server.js:149-158 | A created record holds the trimmed name and category, the price as sent (never below 0), each optional field as sent or its default when left out (or falsy, for text), and the creation stamp |
| Catalog.UpdatedRecord | server.js:180-190 | An updated record holds the trimmed name and category and the price as sent, each optional field as sent or as stored before when left out, and the same id and creation stamp |
| Catalog.NegativePriceRefused | models/Product.js:15-19 | A negative price is never stored by a create, an update or a promotion |
| Catalog.ZeroPriceAccepted | server.js:145-147 | A price of 0 passes the field check and the validator, and the record is created |
| Catalog.UpdateKeepsIdentity | server.js:180-190 | An update keeps the record's id, its creation stamp and the set of stored ids |
| Catalog.CreatedPromotionRecord | server.js:240-262 | A 201 promotion passed the field check and parsed as an integer. The stored record holds the trimmed name, the price as sent (never below 0), the trimmed category or "promociones" when it was left out or empty, `promo` as the text of `parseInt(promo)`, `descripcion` as sent or "", each array as sent or `[]`, and the creation stamp |
| Catalog.CreatedPromotionIsListed | server.js:244-261 | A created promotion appears in `GET /api/promociones`, and its stored `promo` text reads back as the number parsed from the request |
| Catalog.PromotionsAreProductsWithPromo | server.js:221 | The promotions list is the product list without the records whose `promo` is empty |
| Catalog.Server.ListProducts | server.js:114-122 | Answers 200 with every stored record exactly once, newest first |
| Catalog.Server.ListPromotions | server.js:218-227 | Answers 200 with every stored record whose `promo` is not empty, exactly once, newest first |
| Catalog.Server.GetProduct | server.js:125-136 | Answers what `Catalog.Get` specifies on the current collection, changing nothing |
| Catalog.Server.PostProduct | server.js:139-166 | A request the gate refuses gets the gate's 401 and the collection is unchanged. Otherwise the answer and the new collection are those of `Catalog.Create`, and the invariant is kept |
| Catalog.Server.PutProduct | server.js:169-195 | Same as `PostProduct`, with `Catalog.Update` |
| Catalog.Server.DeleteProduct | server.js:198-212 | Same as `PostProduct`, with `Catalog.Delete` |
| Catalog.Server.PostPromotion | server.js:234-267 | Same as `PostProduct`, with `Catalog.CreatePromotion` |
| Catalog.Server.CreateProduct | server.js:142-161 | The handler updates the fields in place to exactly what `Catalog.Create` specifies |
| Catalog.Server.UpdateProduct | server.js:173-190 | The handler updates the fields in place to exactly what `Catalog.Update` specifies |
| Catalog.Server.RemoveProduct | server.js:200-207 | The handler updates the fields in place to exactly what `Catalog.Delete` specifies |
| Catalog.Server.CreatePromotionRecord | server.js:237-262 | The handler updates the fields in place to exactly what `Catalog.CreatePromotion` specifies |
| Catalog.Server.Save | server.js:160 | `save()` refuses exactly the values the validators reject and then changes nothing. Otherwise it stores the new record under the next id and advances the id |

## Left out

- Express setup, CORS, the body-parser limits, `app.listen` and `GET /`: transport configuration with no decision logic.
- The Mongo connection and `process.exit` on failure: I/O and process control.
- bcrypt and JSON Web Tokens: `bcrypt.compare`, `jwt.sign` and `jwt.verify` with its expiry clock are function parameters. Their internals and the clock are foreign library code.
- The 500 answers for store or library failures, and `console.error` logging. The one 500 path modelled is a record the schema's validators refuse, because that path decides what may be stored.
- The second `GET /api/products` registration after `app.listen`: it duplicates the first and is shadowed by it.
- generar_hash.js: a command-line wrapper around bcrypt with no logic of its own.
- `Date.now`: the creation stamp is the parameter `now`, an integer whose order is all that matters.
- Request bodies whose fields have another JSON type than the schema's (Mongoose casting, for instance a numeric `nombre`) and URL-encoded bodies: each field is typed, and is either missing, `null` or a value of its type.
- Catalog.Update: a field sent as `null` keeps the stored value, just like a missing one. Mongoose would store `null`, which the record type cannot hold.
- Ids are natural numbers handed out in order. A malformed ObjectId string in the path (a cast error, answered 500) is not modelled.
- Records without a `promo` key at all (the `$exists` half of the filter): every record the model stores has one, since the schema gives it a default.
- Queries.SortByDate: records with equal stamps come out in a fixed order. The store leaves their order unspecified.
- JsNumber.ParseInt: the result is an exact integer. Precision loss above 2^53, `String()` of values of 10^21 or more, and the sign of `-0` are not modelled.
- ProductSchema.Product: `precio` is an exact `real`, not an IEEE double. It is only compared with 0, where the two agree.
- `Catalog.Server` runs one request at a time. Concurrent requests interleaving at `await` are not modelled.
