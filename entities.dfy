/** The five mapped classes of the schema as row values, each with the
    `serialize` method that turns a row into a flat dictionary.

    A NOT NULL column is a plain field; the two nullable columns of
    `user` (`nombre`, `apellido`) are `Option`s. The catalog columns
    `genero`, `clima`, ... are NOT NULL because their annotation is a
    non-optional `Mapped[str]` and no `nullable` argument overrides it.
    `fecha_suscripcion` is kept as the ISO-8601 text that `serialize`
    emits; its default (the clock) is supplied by whoever creates the row. */
module Entities {
  import opened Wrappers
  import opened Json

  /** The three discriminator strings that the `tipo`-guarded relationships
      compare against. Any other `tipo` value is storable but matches none. */
  const TipoPersonaje: string := "personaje"
  const TipoPlaneta: string := "planeta"
  const TipoVehiculo: string := "vehiculo"

  /** True when `tipo` is one of the three recognised discriminators. */
  predicate KnownTipo(tipo: string)
  {
    tipo == TipoPersonaje || tipo == TipoPlaneta || tipo == TipoVehiculo
  }

  datatype User = User(
    id: int,
    email: string,
    password: string,
    isActive: bool,
    nombre: Option<string>,
    apellido: Option<string>,
    fechaSuscripcion: string)
  {
    /** The public shape of a user: the credential and the active flag
        never leave the row. */
    function Serialize(): (d: Dict)
      ensures d.Keys == {"id", "email", "nombre", "apellido", "fecha_suscripcion"}
      ensures "password" !in d && "is_active" !in d
      ensures d["id"] == IntVal(id)
      ensures d["nombre"] == NullVal <==> nombre.None?
      ensures d["apellido"] == NullVal <==> apellido.None?
      ensures d["email"].StrVal? && d["fecha_suscripcion"].StrVal?
    {
      map[
        "id" := IntVal(id),
        "email" := StrVal(email),
        "nombre" := Nullable(nombre),
        "apellido" := Nullable(apellido),
        "fecha_suscripcion" := StrVal(fechaSuscripcion)]
    }
  }

  datatype Personaje = Personaje(
    id: int,
    nombre: string,
    genero: string,
    altura: string,
    colorPelo: string,
    colorPiel: string,
    colorOjos: string)
  {
    function Serialize(): (d: Dict)
      ensures d.Keys == {"id", "nombre", "genero", "altura", "color_pelo", "color_piel", "color_ojos"}
      ensures d["id"] == IntVal(id)
      ensures forall k :: k in d && k != "id" ==> d[k].StrVal?
    {
      map[
        "id" := IntVal(id),
        "nombre" := StrVal(nombre),
        "genero" := StrVal(genero),
        "altura" := StrVal(altura),
        "color_pelo" := StrVal(colorPelo),
        "color_piel" := StrVal(colorPiel),
        "color_ojos" := StrVal(colorOjos)]
    }
  }

  datatype Planeta = Planeta(
    id: int,
    nombre: string,
    clima: string,
    terreno: string,
    poblacion: string)
  {
    function Serialize(): (d: Dict)
      ensures d.Keys == {"id", "nombre", "clima", "terreno", "poblacion"}
      ensures d["id"] == IntVal(id)
      ensures forall k :: k in d && k != "id" ==> d[k].StrVal?
    {
      map[
        "id" := IntVal(id),
        "nombre" := StrVal(nombre),
        "clima" := StrVal(clima),
        "terreno" := StrVal(terreno),
        "poblacion" := StrVal(poblacion)]
    }
  }

  datatype Vehiculo = Vehiculo(
    id: int,
    nombre: string,
    modelo: string,
    fabricante: string,
    costo: string,
    longitud: string)
  {
    function Serialize(): (d: Dict)
      ensures d.Keys == {"id", "nombre", "modelo", "fabricante", "costo", "longitud"}
      ensures d["id"] == IntVal(id)
      ensures forall k :: k in d && k != "id" ==> d[k].StrVal?
    {
      map[
        "id" := IntVal(id),
        "nombre" := StrVal(nombre),
        "modelo" := StrVal(modelo),
        "fabricante" := StrVal(fabricante),
        "costo" := StrVal(costo),
        "longitud" := StrVal(longitud)]
    }
  }

  /** A favourite: an owner, a free-form discriminator and an untyped target
      id whose meaning depends on the discriminator. */
  datatype Favorito = Favorito(id: int, usuarioId: int, tipo: string, objetoId: int)
  {
    /** The four columns every serialised favourite carries, whether or not
        its target resolves. */
    function BaseFields(): (d: Dict)
      ensures d.Keys == {"id", "usuario_id", "tipo", "objeto_id"}
      ensures "detalle" !in d
      ensures d["tipo"].StrVal? && d["tipo"].s == tipo
      ensures d["id"].IntVal? && d["id"].i == id
      ensures d["usuario_id"].IntVal? && d["usuario_id"].i == usuarioId
      ensures d["objeto_id"].IntVal? && d["objeto_id"].i == objetoId
    {
      map[
        "id" := IntVal(id),
        "usuario_id" := IntVal(usuarioId),
        "tipo" := StrVal(tipo),
        "objeto_id" := IntVal(objetoId)]
    }
  }

  /** A user's serialisation determines exactly the user's public columns:
      two users serialise alike if and only if they differ at most in
      `password` and `is_active`. */
  lemma UserSerializeHidesOnlyCredentials(u: User, v: User)
    ensures u.Serialize() == v.Serialize() <==> u.(password := v.password, isActive := v.isActive) == v
  {
  }

  /** Serialising a catalog row loses nothing: equal serialisations come
      from equal rows. */
  lemma PersonajeSerializeInjective(p: Personaje, q: Personaje)
    ensures p.Serialize() == q.Serialize() <==> p == q
  {
  }

  lemma PlanetaSerializeInjective(p: Planeta, q: Planeta)
    ensures p.Serialize() == q.Serialize() <==> p == q
  {
  }

  lemma VehiculoSerializeInjective(v: Vehiculo, w: Vehiculo)
    ensures v.Serialize() == w.Serialize() <==> v == w
  {
  }

}
