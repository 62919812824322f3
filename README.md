# Star Wars favourites schema, modelled in Dafny

This project models `src/models.py`, the Flask-SQLAlchemy schema of a small
"favourites" catalog. The schema has five mapped classes:

- `User`, with a unique `email`;
- the catalog classes `Personaje`, `Planeta` and `Vehiculo`, each with a unique `nombre`;
- `Favorito`, a row linking a user to one catalog row.

A favourite does not use a foreign key to point at its catalog row. It holds a
free-form discriminator string `tipo` and an untyped `objeto_id`. Three
relationships with a `primaryjoin` (`Favorito.personaje`, `.planeta`,
`.vehiculo`) each look `objeto_id` up in one table, guarded by an exact `tipo`
string. `Favorito.serialize` emits the four base columns. It adds `"detalle"`
only when one of those relationships finds a row.

The model has five modules:

- `Wrappers` (`wrappers.dfy`): `Option`.
- `Json` (`json.dfy`): the values that `serialize` puts into a dictionary. A
  Python dict is modelled as `map<string, Value>`.
- `Entities` (`entities.dfy`): one datatype per mapped class, each with its
  `serialize` as a function. A NOT NULL column is a plain field. The nullable
  columns `User.nombre` and `User.apellido` are `Option`s.
- `Resolution` (`resolution.dfy`): the three `tipo`-guarded relationships,
  `Favorito.usuario`, and the reverse `favoritos` views. It also has
  `FavoritoView`, the specification of `Favorito.serialize`: the tagged-variant
  reading, in which the discriminator selects one table. `Chain` generalises
  the source's `if/elif` chain to any order of tests, and a lemma shows that
  every order gives the same result.
- `Store` (`store.dfy`): class `Database` holds the five tables as maps from
  primary key to row. Its insert methods enforce the declared constraints: the
  primary keys, `unique=True`, and the `usuario_id` foreign key. An insert
  that would break one is rejected and leaves every table unchanged.
  `DeleteUser` carries out the `cascade="all, delete"` of `User.favoritos`.
  Catalog deletes cascade to nothing. `SerializeFavorito` is the imperative
  `Favorito.serialize`: it builds `data` and then assigns `data["detalle"]`
  through the `if/elif` chain. It is proved equal to `FavoritoView`.

The discriminator values are the strings `"personaje"`, `"planeta"` and
`"vehiculo"`, and the embedded key is `"detalle"`.

`genero`, `clima` and the other catalog columns are NOT NULL in the model.
Their annotation is a non-optional `Mapped[str]`, and no `nullable` argument
overrides it.

## Model

| member | source | states |
|---|---|---|
| `Entities.User.Serialize` | src/models.py:25-32 | The result has exactly the keys `id`, `email`, `nombre`, `apellido` and `fecha_suscripcion`. `password` and `is_active` never appear. `nombre` and `apellido` are null exactly when the column is null. |
| `Entities.UserSerializeHidesOnlyCredentials` | src/models.py:8-32 | Two users serialise alike if and only if they differ at most in `password` and `is_active`. So serialisation shows every public column and nothing else. |
| `Entities.Personaje.Serialize` | src/models.py:53-62 | The result has exactly the seven declared keys. `id` is the row's id and every other value is a string. |
| `Entities.PersonajeSerializeInjective` | src/models.py:53-62 | Two characters serialise alike if and only if they are the same row. |
| `Entities.Planeta.Serialize` | src/models.py:81-88 | The result has exactly the five declared keys. `id` is the row's id and every other value is a string. |
| `Entities.PlanetaSerializeInjective` | src/models.py:81-88 | Two planets serialise alike if and only if they are the same row. |
| `Entities.Vehiculo.Serialize` | src/models.py:108-116 | The result has exactly the six declared keys. `id` is the row's id and every other value is a string. |
| `Entities.VehiculoSerializeInjective` | src/models.py:108-116 | Two vehicles serialise alike if and only if they are the same row. |
| `Entities.Favorito.BaseFields` | src/models.py:153-158 | The base dictionary has exactly `id`, `usuario_id`, `tipo` and `objeto_id`, equal to the row's own columns, and no `detalle`. |
| `Resolution.ResolvePersonaje` | src/models.py:127-134 | Non-empty exactly when `tipo == "personaje"` and a character has id `objeto_id`. Any stored row that meets the join condition is the result. |
| `Resolution.ResolvePlaneta` | src/models.py:135-142 | The same for `tipo == "planeta"` and the planet table. |
| `Resolution.ResolveVehiculo` | src/models.py:143-150 | The same for `tipo == "vehiculo"` and the vehicle table. |
| `Resolution.AtMostOneResolves` | src/models.py:127-150 | For any favourite, at most one of the three relationships is non-empty. None is when `tipo` is not one of the three strings. |
| `Resolution.RelationOf` | src/models.py:122 | Inverse of the relationship guards: a `tipo` selects relationship `rel` exactly when `rel`'s join requires that string. It selects some relationship exactly when `tipo` is one of the three. |
| `Resolution.Detalle` | src/models.py:159-165 | A detail exists for a favourite exactly when the table that `tipo` names has a row with id `objeto_id`. |
| `Resolution.Resolved` | src/models.py:160-165 | One test of the chain yields the discriminator's detail when that test is the relationship `tipo` selects. Otherwise it yields nothing. |
| `Resolution.ChainAgreesWithTipo` | src/models.py:159-165 | In any order of tests, the chain yields the discriminator's detail when the selected relationship is among the tests, and nothing otherwise. Proved by induction on the order. |
| `Resolution.ChainOrderIrrelevant` | src/models.py:160-165 | Every order that tests all three relationships gives the same result as the source's order, and that result is the tagged-variant detail. |
| `Resolution.FavoritoView` | src/models.py:152-166 | The four base keys are always present and equal to the row's own columns. `detalle` is present exactly when the table `tipo` names has row `objeto_id`, and then it equals that row's serialisation. Otherwise the key is absent (never null), and with an unknown `tipo` the result is just the base columns. |
| `Resolution.FavoritoViewBaseIndependent` | src/models.py:153-158 | The catalog tables affect only the `detalle` entry of a serialised favourite. |
| `Resolution.PersonajeFavoritos` | src/models.py:44-51 | A favourite is in `p.favoritos` exactly when its `personaje` relationship resolves to `p`, that is, when `tipo == "personaje"` and `objeto_id == p.id`. |
| `Resolution.PlanetaFavoritos` | src/models.py:72-79 | A favourite is in `p.favoritos` exactly when its `planeta` relationship resolves to `p`. |
| `Resolution.VehiculoFavoritos` | src/models.py:99-106 | A favourite is in `v.favoritos` exactly when its `vehiculo` relationship resolves to `v`. |
| `Resolution.ReverseViewsDisjoint` | src/models.py:44-106 | No favourite is in the reverse views of two catalog kinds at once. |
| `Resolution.ResolveUsuario` | src/models.py:121-125 | `Favorito.usuario` is non-empty exactly when a user has id `usuario_id`, and that user is the result. |
| `Resolution.UserFavoritos` | src/models.py:19-23 | A favourite is in `u.favoritos` exactly when its `usuario` resolves to `u`. |
| `Store.CheckInsert` | src/models.py:10-11 | An insert is accepted exactly when neither the primary key nor the unique column is taken. This applies to `email` in `user` and to `nombre` in the catalog tables (lines 37, 67, 93). An accepted insert keeps both constraints. |
| `Store.CheckFavorito` | src/models.py:120-123 | A favourite insert is accepted exactly when its id is new and its `usuario_id` names a stored user. `tipo` and `objeto_id` are not checked. Acceptance keeps the foreign-key invariant. |
| `Store.Database.InsertUser` | src/models.py:10-17 | The store stays valid. The user is added exactly when `CheckInsert` accepts it. Otherwise nothing changes, and no other table ever changes. |
| `Store.Database.InsertPersonaje` | src/models.py:36-42 | The same for the character table, with `nombre` unique. |
| `Store.Database.InsertPlaneta` | src/models.py:66-70 | The same for the planet table, with `nombre` unique. |
| `Store.Database.InsertVehiculo` | src/models.py:92-97 | The same for the vehicle table, with `nombre` unique. |
| `Store.Database.InsertFavorito` | src/models.py:120-125 | The favourite is added exactly when `CheckFavorito` accepts it. No other table changes. |
| `Store.Database.DeleteUser` | src/models.py:19-23 | Removes the user and exactly the favourites whose `usuario_id` is that user. Every other favourite and every catalog row is unchanged, and the foreign-key invariant still holds. |
| `Store.Database.DeletePersonaje` | src/models.py:44-51 | Removes only the character row. The favourites stay, so orphans become possible, and those that pointed at the row now serialise without `detalle`. |
| `Store.Database.DeletePlaneta` | src/models.py:72-79 | Removes only the planet row. Favourites stay, and those that pointed at it lose `detalle`. |
| `Store.Database.DeleteVehiculo` | src/models.py:99-106 | Removes only the vehicle row. Favourites stay, and those that pointed at it lose `detalle`. |
| `Store.Database.Owner` | src/models.py:121-125 | For a stored favourite, `Favorito.usuario` always resolves, to the user that `usuario_id` names. |
| `Store.Database.SerializeFavorito` | src/models.py:152-166 | The dictionary the imperative `if/elif` chain builds is exactly `FavoritoView` of the favourite over the stored catalog. |

## Left out

- SQLAlchemy itself is not modelled: sessions, engines, transactions, lazy loading and mapper configuration. Relationships are plain table lookups. The reverse views are maps keyed by favourite id, so the order of the lists that SQLAlchemy returns is not modelled.
- The `datetime.utcnow` default and `.isoformat()` of `fecha_suscripcion` are clock and formatting library calls. The timestamp is the ISO-8601 text, supplied when the row is created.
- `String(n)` length limits are not modelled, because whether they are enforced depends on the database backend.
- Password handling and the meaning of `is_active` are not modelled. The file holds no logic for them; they are only stored columns.
- Primary-key generation (autoincrement) is not modelled. Every inserted row carries its id, and a taken id is rejected.
- A NULL in a NOT NULL column cannot be expressed, because those columns have non-`Option` types. So the rejection of such an insert is not modelled.
- Updates to existing rows, and explicit deletion of a single favourite, are not modelled. The file declares nothing for them beyond the generic session operations.
- Store.CheckInsert: when several constraints are broken at once, the model reports the primary key. The database reports whichever constraint error it raises first.
- The foreign key `favorito.usuario_id -> user.id` is modelled as enforced on insert. Some backends (SQLite without its foreign-key pragma) do not enforce it.
- Python truthiness of a related object is modelled as "a row was found", because the mapped classes define no `__bool__` or `__len__`.
- Resolution.ResolvePersonaje: the `tipo == "personaje"` test of the join runs in the database and follows its collation. The model compares strings exactly and case-sensitively, as SQLite and PostgreSQL do by default; a case-insensitive or space-padding collation (such as MySQL's default) is not modelled.
- Resolution.ResolvePlaneta: the same exact comparison is used for `tipo == "planeta"`; collation is not modelled.
- Resolution.ResolveVehiculo: the same exact comparison is used for `tipo == "vehiculo"`; collation is not modelled.
- Store.CheckInsert: the `unique=True` checks on `email` and `nombre` compare strings exactly; a collation under which `"A@x.com"` and `"a@x.com"` clash is not modelled.
- The six `primaryjoin` relationships compare `objeto_id` with a catalog `id` without any `ForeignKey`, `foreign()` annotation or `foreign_keys=` argument, which SQLAlchemy's mapper configuration most likely rejects; the model reads them as the keyed lookups they are evidently meant to be, not as behaviour anyone has observed.
- The web/API layer is not part of this model, and neither is any write-path check that `objeto_id` exists.
