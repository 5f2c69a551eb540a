/** The `Product` schema of models/Product.js: the record, its defaults, the `trim`
    setters and the validators that every stored record passes. */
module ProductSchema {
  import opened Wrappers
  import opened Js

  /** The document id the store assigns; opaque to every handler. */
  type Id = nat

  /** `Date.now()` at creation; only its order matters. */
  type Stamp = int

  /** A stored product. `promo` is the text of a discount ("10" for 10% off);
      the empty string means "no promotion". */
  datatype Product = Product(
    id: Id,
    nombre: string,
    descripcion: string,
    precio: real,
    imagenes: seq<string>,
    colores: seq<string>,
    tallas: seq<string>,
    promo: string,
    categoria: string,
    fechaCreacion: Stamp)

  const DescripcionDefault: string := ""
  const ListDefault: seq<string> := []
  const PromoDefault: string := ""

  /** The values a handler hands to `new Product({...})` or to an update: the
      required fields always, the others when supplied. */
  datatype Fields = Fields(
    nombre: string,
    descripcion: Option<string>,
    precio: real,
    imagenes: Option<seq<string>>,
    colores: Option<seq<string>>,
    tallas: Option<seq<string>>,
    promo: Option<string>,
    categoria: string)

  /** The supplied value, or `d` when there is none. */
  function OrDefault<T>(o: Option<T>, d: T): T {
    if o.Some? then o.value else d
  }

  /** What every stored record satisfies: `nombre` and `categoria` are required
      (Mongoose's `required` refuses the empty string) and trimmed, and `precio`
      is required with `min: 0`. */
  predicate Valid(p: Product) {
    && p.nombre != "" && IsTrimmed(p.nombre)
    && p.precio >= 0.0
    && p.categoria != "" && IsTrimmed(p.categoria)
  }

  /** The validators run on supplied values, after the `trim` setters. */
  predicate Accepts(f: Fields) {
    Trim(f.nombre) != "" && f.precio >= 0.0 && Trim(f.categoria) != ""
  }

  /** `new Product(fields)`: the `trim` setters, the schema defaults for what is
      not supplied, and the creation stamp. */
  function New(id: Id, f: Fields, now: Stamp): (p: Product)
    ensures p.id == id && p.fechaCreacion == now && p.precio == f.precio
    ensures p.nombre == Trim(f.nombre) && p.categoria == Trim(f.categoria)
    ensures IsTrimmed(p.nombre) && IsTrimmed(p.categoria)
    ensures p.descripcion == OrDefault(f.descripcion, DescripcionDefault)
    ensures p.imagenes == OrDefault(f.imagenes, ListDefault)
    ensures p.colores == OrDefault(f.colores, ListDefault)
    ensures p.tallas == OrDefault(f.tallas, ListDefault)
    ensures p.promo == OrDefault(f.promo, PromoDefault)
  {
    Product(
      id,
      Trim(f.nombre),
      OrDefault(f.descripcion, DescripcionDefault),
      f.precio,
      OrDefault(f.imagenes, ListDefault),
      OrDefault(f.colores, ListDefault),
      OrDefault(f.tallas, ListDefault),
      OrDefault(f.promo, PromoDefault),
      Trim(f.categoria),
      now)
  }

  /** An update of the named fields of `p`: supplied values replace the stored
      ones (through the same `trim` setters), the id and the creation stamp stay. */
  function Replace(p: Product, f: Fields): (q: Product)
    ensures q.id == p.id && q.fechaCreacion == p.fechaCreacion && q.precio == f.precio
    ensures q.nombre == Trim(f.nombre) && q.categoria == Trim(f.categoria)
    ensures IsTrimmed(q.nombre) && IsTrimmed(q.categoria)
    ensures q.descripcion == OrDefault(f.descripcion, p.descripcion)
    ensures q.imagenes == OrDefault(f.imagenes, p.imagenes)
    ensures q.colores == OrDefault(f.colores, p.colores)
    ensures q.tallas == OrDefault(f.tallas, p.tallas)
    ensures q.promo == OrDefault(f.promo, p.promo)
  {
    Product(
      p.id,
      Trim(f.nombre),
      OrDefault(f.descripcion, p.descripcion),
      f.precio,
      OrDefault(f.imagenes, p.imagenes),
      OrDefault(f.colores, p.colores),
      OrDefault(f.tallas, p.tallas),
      OrDefault(f.promo, p.promo),
      Trim(f.categoria),
      p.fechaCreacion)
  }

  /** A new record passes the validators exactly when its values do. */
  lemma NewValid(id: Id, f: Fields, now: Stamp)
    ensures Valid(New(id, f, now)) <==> Accepts(f)
  {
  }

  /** An update keeps a record valid exactly when the supplied values pass. */
  lemma ReplaceValid(p: Product, f: Fields)
    ensures Valid(Replace(p, f)) <==> Accepts(f)
  {
  }

  /** Fields left out take the schema defaults: empty text, empty lists, no promotion. */
  lemma NewDefaults(id: Id, f: Fields, now: Stamp)
    ensures f.descripcion.None? ==> New(id, f, now).descripcion == ""
    ensures f.imagenes.None? ==> New(id, f, now).imagenes == []
    ensures f.colores.None? ==> New(id, f, now).colores == []
    ensures f.tallas.None? ==> New(id, f, now).tallas == []
    ensures f.promo.None? ==> New(id, f, now).promo == ""
  {
  }

  /** Text that is already trimmed is stored as given. */
  lemma NewKeepsTrimmedText(id: Id, f: Fields, now: Stamp)
    requires IsTrimmed(f.nombre) && IsTrimmed(f.categoria)
    ensures New(id, f, now).nombre == f.nombre && New(id, f, now).categoria == f.categoria
  {
    TrimOfTrimmed(f.nombre);
    TrimOfTrimmed(f.categoria);
  }
}
