/** The five tables as one in-memory store, with the constraints the schema
    declares (primary keys, `unique=True` columns, the `usuario_id` foreign
    key), the `cascade="all, delete"` of `User.favoritos`, and
    `Favorito.serialize` as the imperative dictionary-building method it is. */
module Store {
  import opened Wrappers
  import opened Json
  import opened Entities
  import opened Resolution

  /** The constraint an insert would break. */
  datatype Violation =
    | DuplicateId      // primary key already present
    | DuplicateEmail   // `user.email` is unique
    | DuplicateNombre  // `nombre` is unique in each catalog table
    | UnknownUser      // `favorito.usuario_id` must name a stored user

  datatype Outcome = Inserted | Rejected(violation: Violation)

  /** The decision for inserting `row` into a table keyed by `key` whose
      column `col` is unique: rejected when the key or the unique value is
      taken (the key is checked first), and an accepted insert keeps both
      constraints. */
  function CheckInsert<T>(table: map<int, T>, row: T, key: T -> int, col: T -> string, clash: Violation): (r: Outcome)
    ensures r == Inserted <==> key(row) !in table && forall k :: k in table ==> col(table[k]) != col(row)
    ensures key(row) in table ==> r == Rejected(DuplicateId)
    ensures r.Rejected? && r.violation != DuplicateId ==>
              r.violation == clash && exists k :: k in table && col(table[k]) == col(row)
    ensures r == Inserted && KeyedBy(table, key) && UniqueBy(table, col) ==>
              KeyedBy(table[key(row) := row], key) && UniqueBy(table[key(row) := row], col)
  {
    if key(row) in table then Rejected(DuplicateId)
    else if exists k :: k in table && col(table[k]) == col(row) then Rejected(clash)
    else Inserted
  }

  /** Every favourite's owner is a stored user (the foreign key
      `favorito.usuario_id -> user.id`). */
  ghost predicate OwnersExist(favs: map<int, Favorito>, users: map<int, User>)
  {
    forall k :: k in favs ==> favs[k].usuarioId in users
  }

  /** The decision for inserting a favourite: only its primary key and its
      owner are checked. Neither `tipo` nor `objeto_id` is validated, so a
      favourite may name an unknown kind or a missing row. */
  function CheckFavorito(favs: map<int, Favorito>, users: map<int, User>, f: Favorito): (r: Outcome)
    ensures r == Inserted <==> f.id !in favs && f.usuarioId in users
    ensures f.id in favs ==> r == Rejected(DuplicateId)
    ensures r.Rejected? && r.violation != DuplicateId ==> r == Rejected(UnknownUser) && f.usuarioId !in users
    ensures r == Inserted && OwnersExist(favs, users) ==> OwnersExist(favs[f.id := f], users)
  {
    if f.id in favs then Rejected(DuplicateId)
    else if f.usuarioId !in users then Rejected(UnknownUser)
    else Inserted
  }

  class Database {
    var users: map<int, User>
    var personajes: map<int, Personaje>
    var planetas: map<int, Planeta>
    var vehiculos: map<int, Vehiculo>
    var favoritos: map<int, Favorito>

    /** The constraints of the schema, which every operation preserves. */
    ghost predicate Valid()
      reads this
    {
      && KeyedBy(users, (u: User) => u.id) && UniqueBy(users, (u: User) => u.email)
      && KeyedBy(personajes, (p: Personaje) => p.id) && UniqueBy(personajes, (p: Personaje) => p.nombre)
      && KeyedBy(planetas, (p: Planeta) => p.id) && UniqueBy(planetas, (p: Planeta) => p.nombre)
      && KeyedBy(vehiculos, (v: Vehiculo) => v.id) && UniqueBy(vehiculos, (v: Vehiculo) => v.nombre)
      && KeyedBy(favoritos, (f: Favorito) => f.id) && OwnersExist(favoritos, users)
    }

    /** The three catalog tables, as the relationships see them. */
    function Tables(): (c: Catalog)
      reads this
      requires Valid()
      ensures CatalogKeyed(c)
    {
      Catalog(personajes, planetas, vehiculos)
    }

    constructor ()
      ensures Valid()
      ensures users == map[] && favoritos == map[]
      ensures personajes == map[] && planetas == map[] && vehiculos == map[]
    {
      users, favoritos := map[], map[];
      personajes, planetas, vehiculos := map[], map[], map[];
    }

    method InsertUser(u: User) returns (r: Outcome)
      requires Valid()
      modifies this
      ensures Valid()
      ensures r == CheckInsert(old(users), u, (w: User) => w.id, (w: User) => w.email, DuplicateEmail)
      ensures users == if r == Inserted then old(users)[u.id := u] else old(users)
      ensures favoritos == old(favoritos)
      ensures personajes == old(personajes) && planetas == old(planetas) && vehiculos == old(vehiculos)
    {
      r := CheckInsert(users, u, (w: User) => w.id, (w: User) => w.email, DuplicateEmail);
      if r == Inserted {
        users := users[u.id := u];
      }
    }

    method InsertPersonaje(p: Personaje) returns (r: Outcome)
      requires Valid()
      modifies this
      ensures Valid()
      ensures r == CheckInsert(old(personajes), p, (q: Personaje) => q.id, (q: Personaje) => q.nombre, DuplicateNombre)
      ensures personajes == if r == Inserted then old(personajes)[p.id := p] else old(personajes)
      ensures users == old(users) && favoritos == old(favoritos)
      ensures planetas == old(planetas) && vehiculos == old(vehiculos)
    {
      r := CheckInsert(personajes, p, (q: Personaje) => q.id, (q: Personaje) => q.nombre, DuplicateNombre);
      if r == Inserted {
        personajes := personajes[p.id := p];
      }
    }

    method InsertPlaneta(p: Planeta) returns (r: Outcome)
      requires Valid()
      modifies this
      ensures Valid()
      ensures r == CheckInsert(old(planetas), p, (q: Planeta) => q.id, (q: Planeta) => q.nombre, DuplicateNombre)
      ensures planetas == if r == Inserted then old(planetas)[p.id := p] else old(planetas)
      ensures users == old(users) && favoritos == old(favoritos)
      ensures personajes == old(personajes) && vehiculos == old(vehiculos)
    {
      r := CheckInsert(planetas, p, (q: Planeta) => q.id, (q: Planeta) => q.nombre, DuplicateNombre);
      if r == Inserted {
        planetas := planetas[p.id := p];
      }
    }

    method InsertVehiculo(v: Vehiculo) returns (r: Outcome)
      requires Valid()
      modifies this
      ensures Valid()
      ensures r == CheckInsert(old(vehiculos), v, (w: Vehiculo) => w.id, (w: Vehiculo) => w.nombre, DuplicateNombre)
      ensures vehiculos == if r == Inserted then old(vehiculos)[v.id := v] else old(vehiculos)
      ensures users == old(users) && favoritos == old(favoritos)
      ensures personajes == old(personajes) && planetas == old(planetas)
    {
      r := CheckInsert(vehiculos, v, (w: Vehiculo) => w.id, (w: Vehiculo) => w.nombre, DuplicateNombre);
      if r == Inserted {
        vehiculos := vehiculos[v.id := v];
      }
    }

    method InsertFavorito(f: Favorito) returns (r: Outcome)
      requires Valid()
      modifies this
      ensures Valid()
      ensures r == CheckFavorito(old(favoritos), old(users), f)
      ensures favoritos == if r == Inserted then old(favoritos)[f.id := f] else old(favoritos)
      ensures users == old(users)
      ensures personajes == old(personajes) && planetas == old(planetas) && vehiculos == old(vehiculos)
    {
      r := CheckFavorito(favoritos, users, f);
      if r == Inserted {
        favoritos := favoritos[f.id := f];
      }
    }

    /** Deleting a user deletes, with it, every favourite the user owns
        (`cascade="all, delete"` on `User.favoritos`) and nothing else. */
    method DeleteUser(id: int) returns (deleted: bool)
      requires Valid()
      modifies this
      ensures Valid()
      ensures deleted == (id in old(users))
      ensures users == old(users) - {id}
      ensures forall k :: k in old(favoritos) ==> (k in favoritos <==> old(favoritos)[k].usuarioId != id)
      ensures forall k :: k in favoritos ==> k in old(favoritos) && favoritos[k] == old(favoritos)[k]
      ensures !deleted ==> favoritos == old(favoritos)
      ensures personajes == old(personajes) && planetas == old(planetas) && vehiculos == old(vehiculos)
    {
      deleted := id in users;
      if deleted {
        var owned := UserFavoritos(users[id], favoritos, users);
        favoritos := favoritos - owned.Keys;
        users := users - {id};
      }
    }

    /** Deleting a character touches no favourite: favourites that pointed
        at it stay, and from then on serialise without a detail. */
    method DeletePersonaje(id: int) returns (deleted: bool)
      requires Valid()
      modifies this
      ensures Valid()
      ensures deleted == (id in old(personajes))
      ensures personajes == old(personajes) - {id}
      ensures favoritos == old(favoritos) && users == old(users)
      ensures planetas == old(planetas) && vehiculos == old(vehiculos)
      ensures forall k :: k in favoritos && favoritos[k].tipo == TipoPersonaje && favoritos[k].objetoId == id ==>
                "detalle" !in FavoritoView(favoritos[k], Tables())
    {
      deleted := id in personajes;
      personajes := personajes - {id};
    }

    /** Deleting a planet touches no favourite. */
    method DeletePlaneta(id: int) returns (deleted: bool)
      requires Valid()
      modifies this
      ensures Valid()
      ensures deleted == (id in old(planetas))
      ensures planetas == old(planetas) - {id}
      ensures favoritos == old(favoritos) && users == old(users)
      ensures personajes == old(personajes) && vehiculos == old(vehiculos)
      ensures forall k :: k in favoritos && favoritos[k].tipo == TipoPlaneta && favoritos[k].objetoId == id ==>
                "detalle" !in FavoritoView(favoritos[k], Tables())
    {
      deleted := id in planetas;
      planetas := planetas - {id};
    }

    /** Deleting a vehicle touches no favourite. */
    method DeleteVehiculo(id: int) returns (deleted: bool)
      requires Valid()
      modifies this
      ensures Valid()
      ensures deleted == (id in old(vehiculos))
      ensures vehiculos == old(vehiculos) - {id}
      ensures favoritos == old(favoritos) && users == old(users)
      ensures personajes == old(personajes) && planetas == old(planetas)
      ensures forall k :: k in favoritos && favoritos[k].tipo == TipoVehiculo && favoritos[k].objetoId == id ==>
                "detalle" !in FavoritoView(favoritos[k], Tables())
    {
      deleted := id in vehiculos;
      vehiculos := vehiculos - {id};
    }

    /** `Favorito.usuario` of a stored favourite always resolves, to the
        user its `usuario_id` names. */
    function Owner(f: Favorito): (r: Option<User>)
      reads this
      requires Valid()
      ensures f.id in favoritos && favoritos[f.id] == f ==> r.Some? && r.value.id == f.usuarioId
    {
      ResolveUsuario(f, users)
    }

    /** `Favorito.serialize`: build the base dictionary, then test
        `personaje`, `planeta` and `vehiculo` in that order and store the
        first one found under `"detalle"`. */
    method SerializeFavorito(f: Favorito) returns (data: Dict)
      requires Valid()
      ensures data == FavoritoView(f, Tables())
    {
      data := f.BaseFields();
      var personaje := ResolvePersonaje(f, personajes);
      if personaje.Some? {
        data := data["detalle" := DictVal(personaje.value.Serialize())];
      } else {
        var planeta := ResolvePlaneta(f, planetas);
        if planeta.Some? {
          data := data["detalle" := DictVal(planeta.value.Serialize())];
        } else {
          var vehiculo := ResolveVehiculo(f, vehiculos);
          if vehiculo.Some? {
            data := data["detalle" := DictVal(vehiculo.value.Serialize())];
          }
        }
      }
    }
  }

}
