/** The product and promotion routes of server.js. The Mongo collection is a map
    from id to record together with the next id the store hands out; each route
    is specified by a function on that state (what it answers and what the
    collection becomes), and class Server runs the routes on its fields. */
module Catalog {
  import opened Wrappers
  import opened Js
  import opened JsNumber
  import opened ProductSchema
  import opened Http
  import opened Auth
  import opened Queries

  /** The fields of a product request body. */
  datatype ProductBody = ProductBody(
    nombre: Field<string>,
    descripcion: Field<string>,
    precio: Field<real>,
    imagenes: Field<seq<string>>,
    colores: Field<seq<string>>,
    tallas: Field<seq<string>>,
    promo: Field<string>,
    categoria: Field<string>)

  const MissingProductFields := Response(400, Error("Falta nombre, precio o categoría."))
  const MissingPromoFields := Response(400, Error("Falta nombre, precio o promo."))
  const PromoNotANumber := Response(400, Error("El campo promo debe ser un número válido."))
  const NotFound := Response(404, Error("Producto no encontrado."))
  const Deleted := Response(200, Message("Producto eliminado correctamente."))
  const CreateFailed := Response(500, Error("Error al crear producto."))
  const UpdateFailed := Response(500, Error("Error al actualizar producto."))
  const PromoCreateFailed := Response(500, Error("Error al crear promoción."))

  /** The category a promotion gets when the body names none. */
  const PromoCategory: string := "promociones"

  /** `!nombre || precio == null || !categoria` is false. A price of 0 passes. */
  predicate HasProductFields(b: ProductBody) {
    Truthy(b.nombre) && !IsNullish(b.precio) && Truthy(b.categoria)
  }

  /** `!nombre || precio == null || !promo` is false. */
  predicate HasPromoFields(b: ProductBody) {
    Truthy(b.nombre) && !IsNullish(b.precio) && Truthy(b.promo)
  }

  function Supplied<T>(f: Field<T>): Option<T> {
    if f.Defined? then Some(f.value) else None
  }

  /** The object `POST /api/products` builds: `x || default` for each optional field. */
  function CreateFields(b: ProductBody): (f: Fields)
    requires HasProductFields(b)
    ensures f.nombre == b.nombre.value && f.precio == b.precio.value && f.categoria == b.categoria.value
    ensures f.descripcion.Some? && f.imagenes.Some? && f.colores.Some? && f.tallas.Some? && f.promo.Some?
  {
    Fields(
      b.nombre.value,
      Some(StringOr(b.descripcion, DescripcionDefault)),
      b.precio.value,
      Some(ArrayOr(b.imagenes, ListDefault)),
      Some(ArrayOr(b.colores, ListDefault)),
      Some(ArrayOr(b.tallas, ListDefault)),
      Some(StringOr(b.promo, PromoDefault)),
      b.categoria.value)
  }

  /** The update `PUT /api/products/:id` sends: the body's fields as they are. */
  function UpdateFields(b: ProductBody): (f: Fields)
    requires HasProductFields(b)
    ensures f.nombre == b.nombre.value && f.precio == b.precio.value && f.categoria == b.categoria.value
    ensures f.descripcion.Some? <==> b.descripcion.Defined?
    ensures f.imagenes.Some? <==> b.imagenes.Defined?
    ensures f.colores.Some? <==> b.colores.Defined?
    ensures f.tallas.Some? <==> b.tallas.Defined?
    ensures f.promo.Some? <==> b.promo.Defined?
  {
    Fields(
      b.nombre.value,
      Supplied(b.descripcion),
      b.precio.value,
      Supplied(b.imagenes),
      Supplied(b.colores),
      Supplied(b.tallas),
      Supplied(b.promo),
      b.categoria.value)
  }

  /** The object `POST /api/promociones` builds once `parseInt(promo)` gave `n`:
      `promo` holds `String(n)` (the schema types it as text) and the category
      defaults to "promociones". */
  function PromoFields(b: ProductBody, n: int): (f: Fields)
    requires HasPromoFields(b)
    ensures f.nombre == b.nombre.value && f.precio == b.precio.value
    ensures f.promo == Some(IntToString(n))
    ensures f.descripcion == Some(if Truthy(b.descripcion) then b.descripcion.value else "")
    ensures f.imagenes == Some(if b.imagenes.Defined? then b.imagenes.value else [])
    ensures f.colores == Some(if b.colores.Defined? then b.colores.value else [])
    ensures f.tallas == Some(if b.tallas.Defined? then b.tallas.value else [])
    ensures f.categoria == (if Truthy(b.categoria) then b.categoria.value else "promociones")
    ensures f.categoria != ""
  {
    Fields(
      b.nombre.value,
      Some(StringOr(b.descripcion, DescripcionDefault)),
      b.precio.value,
      Some(ArrayOr(b.imagenes, ListDefault)),
      Some(ArrayOr(b.colores, ListDefault)),
      Some(ArrayOr(b.tallas, ListDefault)),
      Some(IntToString(n)),
      StringOr(b.categoria, PromoCategory))
  }

  // ---------------------------------------------------------------------------
  // The collection
  // ---------------------------------------------------------------------------

  datatype Store = Store(products: map<Id, Product>, nextId: Id)

  /** Every record sits under its own id, ids still to be handed out are free,
      and every record passed the schema's validators. */
  predicate Consistent(s: Store) {
    forall k :: k in s.products ==> k < s.nextId && s.products[k].id == k && Valid(s.products[k])
  }

  /** What a route answers and what the collection is afterwards. */
  datatype Outcome = Outcome(response: Response, store: Store)

  /** `t` is `s` with the one new record `p` added under the next id, which was
      free and is used up. */
  predicate AddsOne(s: Store, t: Store, p: Product) {
    p.id == s.nextId && p.id !in s.products && t == Store(s.products[p.id := p], s.nextId + 1)
  }

  /** The next id is free, and adding a valid record under it keeps the
      collection consistent. */
  lemma AddKeepsConsistent(s: Store, p: Product)
    requires Consistent(s) && p.id == s.nextId && Valid(p)
    ensures AddsOne(s, Store(s.products[p.id := p], s.nextId + 1), p)
    ensures Consistent(Store(s.products[p.id := p], s.nextId + 1))
  {
  }

  /** Putting a valid record with the same id in place of a stored one keeps the
      collection consistent. */
  lemma ReplaceKeepsConsistent(s: Store, p: Product)
    requires Consistent(s) && p.id in s.products && Valid(p)
    ensures Consistent(Store(s.products[p.id := p], s.nextId))
  {
  }

  /** `GET /api/products` (Everything) and `GET /api/promociones` (OnPromotion):
      every matching record exactly once, and no other, newest first. */
  function List(s: Store, f: Filter): (r: seq<Product>)
    requires Consistent(s)
    ensures NewestFirst(r) && DistinctIds(r)
    ensures forall p :: p in r <==> p in s.products.Values && Matches(f, p)
  {
    var found := Find(s.products, s.nextId, f);
    var r := SortByDate(found);
    assert forall p :: p in r <==> p in found by {
      forall p ensures p in r <==> p in found {
        assert p in r <==> p in multiset(r);
      }
    }
    SortKeepsIdsDistinct(found);
    r
  }

  // ---------------------------------------------------------------------------
  // Handlers, as functions on the collection
  // ---------------------------------------------------------------------------

  /** `GET /api/products/:id`. */
  function Get(s: Store, id: Id): (r: Response)
    ensures r.status == 200 <==> id in s.products
    ensures r.status == 200 ==> r.body == One(s.products[id])
    ensures r.status != 200 ==> r == NotFound
  {
    if id in s.products then Response(200, One(s.products[id])) else NotFound
  }

  /** The handler of `POST /api/products`. It refuses a body without `nombre`,
      `precio` or `categoria`; `save()` refuses a record the validators reject;
      otherwise exactly one record is added under a fresh id, nothing else
      changes, and the new record is sent back with 201. */
  function Create(s: Store, body: ProductBody, now: Stamp): (o: Outcome)
    requires Consistent(s)
    ensures o.response.status == 400 <==> !HasProductFields(body)
    ensures o.response.status == 400 ==> o.response == MissingProductFields
    ensures o.response.status == 201 <==> HasProductFields(body) && Accepts(CreateFields(body))
    ensures o.response.status == 201 ==>
              o.response == Response(201, One(New(s.nextId, CreateFields(body), now)))
              && AddsOne(s, o.store, o.response.body.product)
    ensures o.response.status == 500 ==> o.response == CreateFailed
    ensures o.response.status != 201 ==> o.store == s
    ensures o.response.status in {201, 400, 500}
    ensures Consistent(o.store)
  {
    if !HasProductFields(body) then Outcome(MissingProductFields, s)
    else
      var f := CreateFields(body);
      var p := New(s.nextId, f, now);
      NewValid(s.nextId, f, now);
      if !Accepts(f) then Outcome(CreateFailed, s)
      else
        AddKeepsConsistent(s, p);
        Outcome(Response(201, One(p)), Store(s.products[p.id := p], s.nextId + 1))
  }

  /** The handler of `PUT /api/products/:id`. It refuses a body without the
      required fields; the validators (run on the supplied values) refuse bad
      values; an unknown id gets 404; otherwise only the record under `id`
      changes, keeping its id and creation stamp. */
  function Update(s: Store, id: Id, body: ProductBody): (o: Outcome)
    requires Consistent(s)
    ensures o.response.status == 400 <==> !HasProductFields(body)
    ensures o.response.status == 400 ==> o.response == MissingProductFields
    ensures o.response.status == 500 <==> HasProductFields(body) && !Accepts(UpdateFields(body))
    ensures o.response.status == 500 ==> o.response == UpdateFailed
    ensures o.response.status == 404 <==>
              HasProductFields(body) && Accepts(UpdateFields(body)) && id !in s.products
    ensures o.response.status == 404 ==> o.response == NotFound
    ensures o.response.status != 200 ==> o.store == s
    ensures o.response.status == 200 ==>
              id in s.products
              && o.response == Response(200, One(Replace(s.products[id], UpdateFields(body))))
              && o.store == Store(s.products[id := o.response.body.product], s.nextId)
    ensures o.response.status in {200, 400, 404, 500}
    ensures Consistent(o.store)
  {
    if !HasProductFields(body) then Outcome(MissingProductFields, s)
    else if !Accepts(UpdateFields(body)) then Outcome(UpdateFailed, s)
    else if id !in s.products then Outcome(NotFound, s)
    else
      var p := Replace(s.products[id], UpdateFields(body));
      ReplaceValid(s.products[id], UpdateFields(body));
      ReplaceKeepsConsistent(s, p);
      Outcome(Response(200, One(p)), Store(s.products[id := p], s.nextId))
  }

  /** The handler of `DELETE /api/products/:id`: removes the record under `id`,
      or answers 404 and changes nothing when there is none. */
  function Delete(s: Store, id: Id): (o: Outcome)
    requires Consistent(s)
    ensures o.response.status == 404 <==> id !in s.products
    ensures o.response.status == 404 ==> o.response == NotFound && o.store == s
    ensures o.response.status != 404 ==>
              o.response == Deleted && o.store == Store(s.products - {id}, s.nextId)
    ensures Consistent(o.store)
  {
    if id !in s.products then Outcome(NotFound, s)
    else Outcome(Deleted, Store(s.products - {id}, s.nextId))
  }

  /** The handler of `POST /api/promociones`. It refuses a body without
      `nombre`, `precio` or `promo`, and a `promo` that `parseInt` reads as NaN;
      otherwise it adds one record whose `promo` is the parsed integer, as text. */
  function CreatePromotion(s: Store, body: ProductBody, now: Stamp): (o: Outcome)
    requires Consistent(s)
    ensures o.response.status == 400 <==> !HasPromoFields(body) || ParseInt(body.promo.value).NaN?
    ensures o.response.status == 400 ==>
              o.response == if HasPromoFields(body) then PromoNotANumber else MissingPromoFields
    ensures o.response.status == 201 <==>
              && HasPromoFields(body)
              && ParseInt(body.promo.value).Int?
              && Accepts(PromoFields(body, ParseInt(body.promo.value).value))
    ensures o.response.status == 201 ==>
              && HasPromoFields(body)
              && ParseInt(body.promo.value).Int?
              && var f := PromoFields(body, ParseInt(body.promo.value).value);
              && o.response == Response(201, One(New(s.nextId, f, now)))
              && AddsOne(s, o.store, o.response.body.product)
    ensures o.response.status == 500 ==> o.response == PromoCreateFailed
    ensures o.response.status != 201 ==> o.store == s
    ensures o.response.status in {201, 400, 500}
    ensures Consistent(o.store)
  {
    if !HasPromoFields(body) then Outcome(MissingPromoFields, s)
    else
      match ParseInt(body.promo.value)
      case NaN => Outcome(PromoNotANumber, s)
      case Int(n) =>
        var f := PromoFields(body, n);
        var p := New(s.nextId, f, now);
        NewValid(s.nextId, f, now);
        if !Accepts(f) then Outcome(PromoCreateFailed, s)
        else
          AddKeepsConsistent(s, p);
          Outcome(Response(201, One(p)), Store(s.products[p.id := p], s.nextId + 1))
  }

  // ---------------------------------------------------------------------------
  // Properties relating several requests
  // ---------------------------------------------------------------------------

  /** A created record is found under the id the response carries, field for field. */
  lemma CreateThenGet(s: Store, body: ProductBody, now: Stamp)
    requires Consistent(s)
    requires Create(s, body, now).response.status == 201
    ensures var o := Create(s, body, now);
            Get(o.store, o.response.body.product.id) == Response(200, o.response.body)
  {
  }

  /** After a successful delete the id is gone: fetching it and deleting it
      again both answer 404. */
  lemma DeleteTwice(s: Store, id: Id)
    requires Consistent(s)
    requires id in s.products
    ensures Delete(s, id).response == Deleted
    ensures Get(Delete(s, id).store, id) == NotFound
    ensures Delete(Delete(s, id).store, id) == Outcome(NotFound, Delete(s, id).store)
  {
  }

  /** What a created record holds: the trimmed name and category, the price as
      sent (never below 0), the defaults for what the body left out, and the
      creation stamp. */
  lemma CreatedRecord(s: Store, body: ProductBody, now: Stamp)
    requires Consistent(s)
    requires Create(s, body, now).response.status == 201
    ensures var p := Create(s, body, now).response.body.product;
            && p.nombre == Trim(body.nombre.value) && p.categoria == Trim(body.categoria.value)
            && p.precio == body.precio.value && p.precio >= 0.0
            && p.fechaCreacion == now
            && p.descripcion == (if Truthy(body.descripcion) then body.descripcion.value else "")
            && p.imagenes == (if body.imagenes.Defined? then body.imagenes.value else [])
            && p.colores == (if body.colores.Defined? then body.colores.value else [])
            && p.tallas == (if body.tallas.Defined? then body.tallas.value else [])
            && p.promo == (if Truthy(body.promo) then body.promo.value else "")
  {
  }

  /** The promotions' default category has no white space to cut. */
  lemma PromoCategoryIsTrimmed()
    ensures Trim(PromoCategory) == PromoCategory
  {
    TrimOfTrimmed(PromoCategory);
  }

  /** What a created promotion holds: the trimmed name, the price as sent (never
      below 0), the category as sent (trimmed) or "promociones" when left out or
      empty, the text of `parseInt(promo)` as `promo`, each optional field as sent
      or its default, and the creation stamp. */
  lemma CreatedPromotionRecord(s: Store, body: ProductBody, now: Stamp)
    requires Consistent(s)
    requires CreatePromotion(s, body, now).response.status == 201
    ensures HasPromoFields(body) && ParseInt(body.promo.value).Int?
    ensures var p := CreatePromotion(s, body, now).response.body.product;
            && p.nombre == Trim(body.nombre.value) && p.precio == body.precio.value && p.precio >= 0.0
            && p.categoria == (if Truthy(body.categoria) then Trim(body.categoria.value) else "promociones")
            && p.promo == IntToString(ParseInt(body.promo.value).value)
            && p.fechaCreacion == now
            && p.descripcion == (if Truthy(body.descripcion) then body.descripcion.value else "")
            && p.imagenes == (if body.imagenes.Defined? then body.imagenes.value else [])
            && p.colores == (if body.colores.Defined? then body.colores.value else [])
            && p.tallas == (if body.tallas.Defined? then body.tallas.value else [])
  {
    var f := PromoFields(body, ParseInt(body.promo.value).value);
    var p := CreatePromotion(s, body, now).response.body.product;
    assert p == New(s.nextId, f, now);
    PromoCategoryIsTrimmed();
  }

  /** What an updated record holds: the trimmed name and category and the price
      as sent; each optional field as sent when the body has it, and as stored
      before when the body leaves it out (or sends `null`); the same id and
      creation stamp. */
  lemma UpdatedRecord(s: Store, id: Id, body: ProductBody)
    requires Consistent(s)
    requires Update(s, id, body).response.status == 200
    ensures var before := s.products[id];
            var q := Update(s, id, body).response.body.product;
            && q.nombre == Trim(body.nombre.value) && q.categoria == Trim(body.categoria.value)
            && q.precio == body.precio.value && q.precio >= 0.0
            && q.id == id && q.fechaCreacion == before.fechaCreacion
            && q.descripcion == (if body.descripcion.Defined? then body.descripcion.value else before.descripcion)
            && q.imagenes == (if body.imagenes.Defined? then body.imagenes.value else before.imagenes)
            && q.colores == (if body.colores.Defined? then body.colores.value else before.colores)
            && q.tallas == (if body.tallas.Defined? then body.tallas.value else before.tallas)
            && q.promo == (if body.promo.Defined? then body.promo.value else before.promo)
  {
  }

  /** A negative price is never stored: such a create or update changes nothing. */
  lemma NegativePriceRefused(s: Store, id: Id, body: ProductBody, now: Stamp)
    requires Consistent(s)
    requires body.precio.Defined? && body.precio.value < 0.0
    ensures Create(s, body, now).store == s
    ensures Update(s, id, body).store == s
    ensures CreatePromotion(s, body, now).store == s
  {
  }

  /** A price of 0 passes both the field check and the `min: 0` validator. */
  lemma ZeroPriceAccepted(s: Store, body: ProductBody, now: Stamp)
    requires Consistent(s)
    requires Truthy(body.nombre) && Truthy(body.categoria) && body.precio == Defined(0.0)
    requires Trim(body.nombre.value) != "" && Trim(body.categoria.value) != ""
    ensures Create(s, body, now).response.status == 201
    ensures Create(s, body, now).response.body.product.precio == 0.0
  {
  }

  /** An update never moves a record to another id and never touches its
      creation stamp: `fechaCreacion` is set once, at creation. */
  lemma UpdateKeepsIdentity(s: Store, id: Id, body: ProductBody)
    requires Consistent(s)
    requires Update(s, id, body).response.status == 200
    ensures var q := Update(s, id, body).response.body.product;
            q.id == id && q.fechaCreacion == s.products[id].fechaCreacion
            && Update(s, id, body).store.products.Keys == s.products.Keys
  {
    var o := Update(s, id, body);
    StoredKeysKept(s.products, id, o.response.body.product);
  }

  /** Overwriting a key that is present leaves the set of keys as it was. */
  lemma StoredKeysKept<K, V>(m: map<K, V>, k: K, v: V)
    requires k in m
    ensures m[k := v].Keys == m.Keys
  {
  }

  /** A promotion that was created is listed among the promotions, and its
      stored `promo` text parses back to the number read from the request. */
  lemma CreatedPromotionIsListed(s: Store, body: ProductBody, now: Stamp)
    requires Consistent(s)
    requires CreatePromotion(s, body, now).response.status == 201
    ensures var o := CreatePromotion(s, body, now);
            && o.response.body.product in List(o.store, OnPromotion)
            && ParseInt(o.response.body.product.promo) == ParseInt(body.promo.value)
  {
    var o := CreatePromotion(s, body, now);
    var p := o.response.body.product;
    var n := ParseInt(body.promo.value).value;
    ParseIntOfIntToString(n);
    assert p.promo == IntToString(n);
    assert p in o.store.products.Values by {
      assert o.store.products[p.id] == p;
    }
  }

  /** The promotions list is the product list without the records whose
      `promo` is empty. */
  lemma PromotionsAreProductsWithPromo(s: Store)
    requires Consistent(s)
    ensures forall p :: p in List(s, OnPromotion) <==> p in List(s, Everything) && p.promo != ""
  {
  }

  // ---------------------------------------------------------------------------
  // The running server
  // ---------------------------------------------------------------------------

  /** The server's collection, updated in place by the protected routes. */
  class Server {
    var products: map<Id, Product>
    var nextId: Id

    function State(): Store
      reads this
    {
      Store(products, nextId)
    }

    ghost predicate Valid()
      reads this
    {
      Consistent(State())
    }

    constructor ()
      ensures Valid() && products == map[]
    {
      products := map[];
      nextId := 0;
    }

    /** `GET /api/products`. */
    method ListProducts() returns (r: Response)
      requires Valid()
      ensures r.status == 200 && r.body.Many?
      ensures NewestFirst(r.body.products) && DistinctIds(r.body.products)
      ensures forall p :: p in r.body.products <==> p in products.Values
    {
      r := Response(200, Many(List(State(), Everything)));
    }

    /** `GET /api/promociones`. */
    method ListPromotions() returns (r: Response)
      requires Valid()
      ensures r.status == 200 && r.body.Many?
      ensures NewestFirst(r.body.products) && DistinctIds(r.body.products)
      ensures forall p :: p in r.body.products <==> p in products.Values && p.promo != ""
    {
      r := Response(200, Many(List(State(), OnPromotion)));
    }

    /** `GET /api/products/:id`. */
    method GetProduct(id: Id) returns (r: Response)
      ensures r == Get(State(), id)
    {
      r := Get(State(), id);
    }

    /** `POST /api/products`: `verifyJWT`, then the handler. */
    method PostProduct(authorization: Option<string>, verify: Verifier, body: ProductBody, now: Stamp)
      returns (r: Response)
      requires Valid()
      modifies this
      ensures Valid()
      ensures VerifyJwt(authorization, verify).Denied? ==>
                r == VerifyJwt(authorization, verify).response && State() == old(State())
      ensures VerifyJwt(authorization, verify).Admitted? ==>
                Outcome(r, State()) == Create(old(State()), body, now)
    {
      var gate := VerifyJwt(authorization, verify);
      if gate.Denied? {
        return gate.response;
      }
      r := CreateProduct(body, now);
    }

    /** `PUT /api/products/:id`: `verifyJWT`, then the handler. */
    method PutProduct(authorization: Option<string>, verify: Verifier, id: Id, body: ProductBody)
      returns (r: Response)
      requires Valid()
      modifies this
      ensures Valid()
      ensures VerifyJwt(authorization, verify).Denied? ==>
                r == VerifyJwt(authorization, verify).response && State() == old(State())
      ensures VerifyJwt(authorization, verify).Admitted? ==>
                Outcome(r, State()) == Update(old(State()), id, body)
    {
      var gate := VerifyJwt(authorization, verify);
      if gate.Denied? {
        return gate.response;
      }
      r := UpdateProduct(id, body);
    }

    /** `DELETE /api/products/:id`: `verifyJWT`, then the handler. */
    method DeleteProduct(authorization: Option<string>, verify: Verifier, id: Id)
      returns (r: Response)
      requires Valid()
      modifies this
      ensures Valid()
      ensures VerifyJwt(authorization, verify).Denied? ==>
                r == VerifyJwt(authorization, verify).response && State() == old(State())
      ensures VerifyJwt(authorization, verify).Admitted? ==>
                Outcome(r, State()) == Delete(old(State()), id)
    {
      var gate := VerifyJwt(authorization, verify);
      if gate.Denied? {
        return gate.response;
      }
      r := RemoveProduct(id);
    }

    /** `POST /api/promociones`: `verifyJWT`, then the handler. */
    method PostPromotion(authorization: Option<string>, verify: Verifier, body: ProductBody, now: Stamp)
      returns (r: Response)
      requires Valid()
      modifies this
      ensures Valid()
      ensures VerifyJwt(authorization, verify).Denied? ==>
                r == VerifyJwt(authorization, verify).response && State() == old(State())
      ensures VerifyJwt(authorization, verify).Admitted? ==>
                Outcome(r, State()) == CreatePromotion(old(State()), body, now)
    {
      var gate := VerifyJwt(authorization, verify);
      if gate.Denied? {
        return gate.response;
      }
      r := CreatePromotionRecord(body, now);
    }

    /** The handler of `POST /api/products`. */
    method CreateProduct(body: ProductBody, now: Stamp) returns (r: Response)
      requires Valid()
      modifies this
      ensures Valid()
      ensures Outcome(r, State()) == Create(old(State()), body, now)
    {
      if !HasProductFields(body) {
        return MissingProductFields;
      }
      var saved := Save(CreateFields(body), now);
      if saved.None? {
        return CreateFailed;
      }
      r := Response(201, One(saved.value));
    }

    /** The handler of `PUT /api/products/:id`. */
    method UpdateProduct(id: Id, body: ProductBody) returns (r: Response)
      requires Valid()
      modifies this
      ensures Valid()
      ensures Outcome(r, State()) == Update(old(State()), id, body)
    {
      if !HasProductFields(body) {
        return MissingProductFields;
      }
      var fields := UpdateFields(body);
      if !Accepts(fields) {
        return UpdateFailed;
      }
      if id !in products {
        return NotFound;
      }
      var p := Replace(products[id], fields);
      ReplaceValid(products[id], fields);
      ReplaceKeepsConsistent(State(), p);
      products := products[id := p];
      r := Response(200, One(p));
    }

    /** The handler of `DELETE /api/products/:id`. */
    method RemoveProduct(id: Id) returns (r: Response)
      requires Valid()
      modifies this
      ensures Valid()
      ensures Outcome(r, State()) == Delete(old(State()), id)
    {
      if id !in products {
        return NotFound;
      }
      products := products - {id};
      r := Deleted;
    }

    /** The handler of `POST /api/promociones`. */
    method CreatePromotionRecord(body: ProductBody, now: Stamp) returns (r: Response)
      requires Valid()
      modifies this
      ensures Valid()
      ensures Outcome(r, State()) == CreatePromotion(old(State()), body, now)
    {
      if !HasPromoFields(body) {
        return MissingPromoFields;
      }
      var parsed := ParseInt(body.promo.value);
      if parsed.NaN? {
        return PromoNotANumber;
      }
      var saved := Save(PromoFields(body, parsed.value), now);
      if saved.None? {
        return PromoCreateFailed;
      }
      r := Response(201, One(saved.value));
    }

    /** `new Product(fields).save()`: the validators refuse the record and nothing
        changes, or the record is stored under the next id. */
    method Save(fields: Fields, now: Stamp) returns (saved: Option<Product>)
      requires Valid()
      modifies this
      ensures Valid()
      ensures saved.Some? <==> Accepts(fields)
      ensures saved.None? ==> State() == old(State())
      ensures saved.Some? ==>
                saved.value == New(old(nextId), fields, now) && AddsOne(old(State()), State(), saved.value)
    {
      if !Accepts(fields) {
        return None;
      }
      var p := New(nextId, fields, now);
      NewValid(nextId, fields, now);
      AddKeepsConsistent(State(), p);
      products := products[p.id := p];
      nextId := nextId + 1;
      saved := Some(p);
    }
  }
}
