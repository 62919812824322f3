/** The discriminated ("polymorphic") favourite: the three `tipo`-guarded
    relationships of `Favorito`, the reverse `favoritos` views of the
    catalog classes and of `User`, and what `Favorito.serialize` produces.

    Every relationship is a join on a table. A table is a map from primary
    key to row, and under `KeyedBy` the key of each row is its `id` column,
    so a join on `id` is a keyed lookup. */
module Resolution {
  import opened Wrappers
  import opened Json
  import opened Entities

  /** Every row is stored under its own primary key. */
  predicate KeyedBy<T>(table: map<int, T>, key: T -> int)
  {
    forall k :: k in table ==> key(table[k]) == k
  }

  /** No two rows of the table agree on the column `col` (a `unique=True`
      column). */
  predicate UniqueBy<T>(table: map<int, T>, col: T -> string)
  {
    forall j, k :: j in table && k in table && col(table[j]) == col(table[k]) ==> j == k
  }

  /** `row` is stored, under its own primary key. */
  ghost predicate Stored<T>(table: map<int, T>, key: T -> int, row: T)
  {
    key(row) in table && table[key(row)] == row
  }

  /** The three catalog tables that favourites point into. */
  datatype Catalog = Catalog(
    personajes: map<int, Personaje>,
    planetas: map<int, Planeta>,
    vehiculos: map<int, Vehiculo>)

  predicate CatalogKeyed(c: Catalog)
  {
    && KeyedBy(c.personajes, (p: Personaje) => p.id)
    && KeyedBy(c.planetas, (p: Planeta) => p.id)
    && KeyedBy(c.vehiculos, (v: Vehiculo) => v.id)
  }

  // ---------------------------------------------------------------------
  // The tipo-guarded relationships Favorito.personaje / .planeta / .vehiculo

  /** `Favorito.personaje`: the character row with `id == objeto_id`, but
      only when `tipo == "personaje"`. The result is exactly the row the
      join condition selects. */
  function ResolvePersonaje(f: Favorito, personajes: map<int, Personaje>): (r: Option<Personaje>)
    requires KeyedBy(personajes, (p: Personaje) => p.id)
    ensures r.Some? <==> f.tipo == TipoPersonaje && f.objetoId in personajes
    ensures r.Some? ==> r.value.id == f.objetoId && f.objetoId in personajes && personajes[f.objetoId] == r.value
    ensures forall k :: k in personajes && personajes[k].id == f.objetoId && f.tipo == TipoPersonaje ==> r == Some(personajes[k])
  {
    if f.tipo == TipoPersonaje && f.objetoId in personajes then Some(personajes[f.objetoId]) else None
  }

  /** `Favorito.planeta`, guarded by `tipo == "planeta"`. */
  function ResolvePlaneta(f: Favorito, planetas: map<int, Planeta>): (r: Option<Planeta>)
    requires KeyedBy(planetas, (p: Planeta) => p.id)
    ensures r.Some? <==> f.tipo == TipoPlaneta && f.objetoId in planetas
    ensures r.Some? ==> r.value.id == f.objetoId && f.objetoId in planetas && planetas[f.objetoId] == r.value
    ensures forall k :: k in planetas && planetas[k].id == f.objetoId && f.tipo == TipoPlaneta ==> r == Some(planetas[k])
  {
    if f.tipo == TipoPlaneta && f.objetoId in planetas then Some(planetas[f.objetoId]) else None
  }

  /** `Favorito.vehiculo`, guarded by `tipo == "vehiculo"`. */
  function ResolveVehiculo(f: Favorito, vehiculos: map<int, Vehiculo>): (r: Option<Vehiculo>)
    requires KeyedBy(vehiculos, (v: Vehiculo) => v.id)
    ensures r.Some? <==> f.tipo == TipoVehiculo && f.objetoId in vehiculos
    ensures r.Some? ==> r.value.id == f.objetoId && f.objetoId in vehiculos && vehiculos[f.objetoId] == r.value
    ensures forall k :: k in vehiculos && vehiculos[k].id == f.objetoId && f.tipo == TipoVehiculo ==> r == Some(vehiculos[k])
  {
    if f.tipo == TipoVehiculo && f.objetoId in vehiculos then Some(vehiculos[f.objetoId]) else None
  }

  /** The three guards exclude each other: whatever the tables hold, at most
      one of the three relationships of a favourite is non-empty, and none
      is when `tipo` is not one of the three strings. */
  lemma AtMostOneResolves(f: Favorito, c: Catalog)
    requires CatalogKeyed(c)
    ensures ResolvePersonaje(f, c.personajes).Some? ==>
              ResolvePlaneta(f, c.planetas).None? && ResolveVehiculo(f, c.vehiculos).None?
    ensures ResolvePlaneta(f, c.planetas).Some? ==>
              ResolvePersonaje(f, c.personajes).None? && ResolveVehiculo(f, c.vehiculos).None?
    ensures ResolveVehiculo(f, c.vehiculos).Some? ==>
              ResolvePersonaje(f, c.personajes).None? && ResolvePlaneta(f, c.planetas).None?
    ensures !KnownTipo(f.tipo) ==>
              && ResolvePersonaje(f, c.personajes).None?
              && ResolvePlaneta(f, c.planetas).None?
              && ResolveVehiculo(f, c.vehiculos).None?
  {
  }

  // ---------------------------------------------------------------------
  // The detail payload: by discriminator, and by the if/elif chain

  /** The three relationships, as names that an ordering of the checks can
      list. */
  datatype Relation = ToPersonaje | ToPlaneta | ToVehiculo

  /** The discriminator string each relationship's join requires. */
  function Guard(rel: Relation): string
  {
    match rel
    case ToPersonaje => TipoPersonaje
    case ToPlaneta => TipoPlaneta
    case ToVehiculo => TipoVehiculo
  }

  /** The relationship a discriminator selects, if any: the inverse of
      `Guard`. */
  function RelationOf(tipo: string): (r: Option<Relation>)
    ensures forall rel :: r == Some(rel) <==> Guard(rel) == tipo
    ensures r.Some? <==> KnownTipo(tipo)
  {
    if tipo == TipoPersonaje then Some(ToPersonaje)
    else if tipo == TipoPlaneta then Some(ToPlaneta)
    else if tipo == TipoVehiculo then Some(ToVehiculo)
    else None
  }

  /** The row with primary key `id` in the table of `rel`, serialised,
      with no discriminator involved. */
  function Target(rel: Relation, id: int, c: Catalog): Option<Dict>
  {
    match rel
    case ToPersonaje => if id in c.personajes then Some(c.personajes[id].Serialize()) else None
    case ToPlaneta => if id in c.planetas then Some(c.planetas[id].Serialize()) else None
    case ToVehiculo => if id in c.vehiculos then Some(c.vehiculos[id].Serialize()) else None
  }

  /** The detail a favourite should carry, read as a tagged variant: the
      discriminator picks one table and `objeto_id` is looked up there. */
  function Detalle(f: Favorito, c: Catalog): (r: Option<Dict>)
    ensures r.Some? <==>
              || (f.tipo == TipoPersonaje && f.objetoId in c.personajes)
              || (f.tipo == TipoPlaneta && f.objetoId in c.planetas)
              || (f.tipo == TipoVehiculo && f.objetoId in c.vehiculos)
  {
    match RelationOf(f.tipo)
    case None => None
    case Some(rel) => Target(rel, f.objetoId, c)
  }

  /** One test of the chain: relationship `rel` of `f`, serialised when it
      is non-empty. It yields the favourite's detail exactly when `rel` is
      the relationship the discriminator selects. */
  function Resolved(rel: Relation, f: Favorito, c: Catalog): (r: Option<Dict>)
    requires CatalogKeyed(c)
    ensures r == (if RelationOf(f.tipo) == Some(rel) then Detalle(f, c) else None)
  {
    match rel
    case ToPersonaje =>
      (match ResolvePersonaje(f, c.personajes) case Some(p) => Some(p.Serialize()) case None => None)
    case ToPlaneta =>
      (match ResolvePlaneta(f, c.planetas) case Some(p) => Some(p.Serialize()) case None => None)
    case ToVehiculo =>
      (match ResolveVehiculo(f, c.vehiculos) case Some(v) => Some(v.Serialize()) case None => None)
  }

  /** An if/elif chain that tests the relationships in `order` and takes the
      first non-empty one. */
  function Chain(order: seq<Relation>, f: Favorito, c: Catalog): Option<Dict>
    requires CatalogKeyed(c)
    decreases |order|
  {
    if order == [] then None
    else match Resolved(order[0], f, c)
      case Some(d) => Some(d)
      case None => Chain(order[1..], f, c)
  }

  /** The order `Favorito.serialize` tests the relationships in. */
  const SourceOrder: seq<Relation> := [ToPersonaje, ToPlaneta, ToVehiculo]

  /** Whatever the order of its tests, the chain yields the detail that the
      discriminator selects when that relationship is among the tests, and
      nothing otherwise. */
  lemma {:induction false} ChainAgreesWithTipo(order: seq<Relation>, f: Favorito, c: Catalog)
    requires CatalogKeyed(c)
    ensures Chain(order, f, c) ==
              (if RelationOf(f.tipo).Some? && RelationOf(f.tipo).value in order then Detalle(f, c) else None)
    decreases |order|
  {
    if order != [] {
      ChainAgreesWithTipo(order[1..], f, c);
      assert order == [order[0]] + order[1..];
    }
  }

  /** The result of the if/elif chain does not depend on the order of its
      checks: any order that tests all three relationships agrees with the
      source's order, and both give the discriminator's detail. */
  lemma ChainOrderIrrelevant(order: seq<Relation>, f: Favorito, c: Catalog)
    requires CatalogKeyed(c)
    requires forall rel: Relation :: rel in order
    ensures Chain(order, f, c) == Chain(SourceOrder, f, c) == Detalle(f, c)
  {
    ChainAgreesWithTipo(order, f, c);
    ChainAgreesWithTipo(SourceOrder, f, c);
  }

  // ---------------------------------------------------------------------
  // Favorito.serialize

  /** What `Favorito.serialize` returns: the four base columns, plus
      `"detalle"` holding the serialised target row exactly when the
      relationship the discriminator selects finds a row. An unknown or
      misspelt `tipo`, or a missing row, leaves the key out (it is never
      null). */
  function FavoritoView(f: Favorito, c: Catalog): (d: Dict)
    ensures d.Keys - {"detalle"} == {"id", "usuario_id", "tipo", "objeto_id"}
    ensures d["id"] == IntVal(f.id) && d["usuario_id"] == IntVal(f.usuarioId)
    ensures d["tipo"] == StrVal(f.tipo) && d["objeto_id"] == IntVal(f.objetoId)
    ensures "detalle" in d <==>
              || (f.tipo == TipoPersonaje && f.objetoId in c.personajes)
              || (f.tipo == TipoPlaneta && f.objetoId in c.planetas)
              || (f.tipo == TipoVehiculo && f.objetoId in c.vehiculos)
    ensures f.tipo == TipoPersonaje && f.objetoId in c.personajes ==>
              d["detalle"] == DictVal(c.personajes[f.objetoId].Serialize())
    ensures f.tipo == TipoPlaneta && f.objetoId in c.planetas ==>
              d["detalle"] == DictVal(c.planetas[f.objetoId].Serialize())
    ensures f.tipo == TipoVehiculo && f.objetoId in c.vehiculos ==>
              d["detalle"] == DictVal(c.vehiculos[f.objetoId].Serialize())
    ensures !KnownTipo(f.tipo) ==> d == f.BaseFields()
  {
    match Detalle(f, c)
    case Some(x) => f.BaseFields()["detalle" := DictVal(x)]
    case None => f.BaseFields()
  }

  /** The favourite's own columns in its serialisation depend on nothing
      but the favourite: changing the catalog only adds, changes or removes
      `"detalle"`. */
  lemma FavoritoViewBaseIndependent(f: Favorito, c1: Catalog, c2: Catalog)
    ensures FavoritoView(f, c1) - {"detalle"} == FavoritoView(f, c2) - {"detalle"}
  {
  }

  // ---------------------------------------------------------------------
  // The reverse views

  /** The favourites whose discriminator is `tipo` and whose target id is
      `objetoId`: the join that every catalog-side `favoritos` view uses. */
  function Referencing(favs: map<int, Favorito>, tipo: string, objetoId: int): map<int, Favorito>
  {
    map k | k in favs && favs[k].tipo == tipo && favs[k].objetoId == objetoId :: favs[k]
  }

  /** `Personaje.favoritos`: a favourite is in the view of the stored
      character `p` exactly when its `personaje` relationship resolves to
      `p`. */
  function PersonajeFavoritos(p: Personaje, favs: map<int, Favorito>, personajes: map<int, Personaje>): (r: map<int, Favorito>)
    requires KeyedBy(personajes, (q: Personaje) => q.id)
    requires Stored(personajes, (q: Personaje) => q.id, p)
    ensures forall k :: k in r <==> k in favs && ResolvePersonaje(favs[k], personajes) == Some(p)
    ensures forall k :: k in r ==> r[k] == favs[k]
  {
    Referencing(favs, TipoPersonaje, p.id)
  }

  /** `Planeta.favoritos`, consistent with `Favorito.planeta`. */
  function PlanetaFavoritos(p: Planeta, favs: map<int, Favorito>, planetas: map<int, Planeta>): (r: map<int, Favorito>)
    requires KeyedBy(planetas, (q: Planeta) => q.id)
    requires Stored(planetas, (q: Planeta) => q.id, p)
    ensures forall k :: k in r <==> k in favs && ResolvePlaneta(favs[k], planetas) == Some(p)
    ensures forall k :: k in r ==> r[k] == favs[k]
  {
    Referencing(favs, TipoPlaneta, p.id)
  }

  /** `Vehiculo.favoritos`, consistent with `Favorito.vehiculo`. */
  function VehiculoFavoritos(v: Vehiculo, favs: map<int, Favorito>, vehiculos: map<int, Vehiculo>): (r: map<int, Favorito>)
    requires KeyedBy(vehiculos, (w: Vehiculo) => w.id)
    requires Stored(vehiculos, (w: Vehiculo) => w.id, v)
    ensures forall k :: k in r <==> k in favs && ResolveVehiculo(favs[k], vehiculos) == Some(v)
    ensures forall k :: k in r ==> r[k] == favs[k]
  {
    Referencing(favs, TipoVehiculo, v.id)
  }

  /** `Favorito.usuario`: the owning user row, by the foreign key. */
  function ResolveUsuario(f: Favorito, users: map<int, User>): (r: Option<User>)
    requires KeyedBy(users, (u: User) => u.id)
    ensures r.Some? <==> f.usuarioId in users
    ensures forall k :: k in users && users[k].id == f.usuarioId ==> r == Some(users[k])
  {
    if f.usuarioId in users then Some(users[f.usuarioId]) else None
  }

  /** `User.favoritos`, the other side of `Favorito.usuario`: a favourite
      belongs to the stored user `u` exactly when its owner resolves to `u`. */
  function UserFavoritos(u: User, favs: map<int, Favorito>, users: map<int, User>): (r: map<int, Favorito>)
    requires KeyedBy(users, (w: User) => w.id)
    requires Stored(users, (w: User) => w.id, u)
    ensures forall k :: k in r <==> k in favs && ResolveUsuario(favs[k], users) == Some(u)
    ensures forall k :: k in r ==> r[k] == favs[k]
  {
    map k | k in favs && favs[k].usuarioId == u.id :: favs[k]
  }

  /** The reverse views of the three catalog kinds never share a favourite:
      a favourite lies in the view of at most one catalog row of any kind. */
  lemma ReverseViewsDisjoint(p: Personaje, q: Planeta, v: Vehiculo, favs: map<int, Favorito>, c: Catalog)
    requires CatalogKeyed(c)
    requires Stored(c.personajes, (x: Personaje) => x.id, p)
    requires Stored(c.planetas, (x: Planeta) => x.id, q)
    requires Stored(c.vehiculos, (x: Vehiculo) => x.id, v)
    ensures PersonajeFavoritos(p, favs, c.personajes).Keys !! PlanetaFavoritos(q, favs, c.planetas).Keys
    ensures PersonajeFavoritos(p, favs, c.personajes).Keys !! VehiculoFavoritos(v, favs, c.vehiculos).Keys
    ensures PlanetaFavoritos(q, favs, c.planetas).Keys !! VehiculoFavoritos(v, favs, c.vehiculos).Keys
  {
  }

}
