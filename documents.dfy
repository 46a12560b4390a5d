/**
 * Stored document shapes of the Cloud Functions module (functions/src/index.ts) and the
 * two ways the document store writes a partial object into a stored one.
 *
 * Firestore documents are sparse: a nested map may lack any of its keys. Every nested
 * record here therefore holds `Option`s, `None` standing for a key the map does not have.
 */
module Documents {
  import opened Wrappers

  type Id = string

  /** A present value in the patch wins; an absent one keeps what was there. */
  function Over<T>(base: Option<T>, patch: Option<T>): (r: Option<T>)
    ensures patch.Some? ==> r == patch
    ensures patch.None? ==> r == base
  {
    if patch.Some? then patch else base
  }

  /** Patches compose: `p` then `q` is `q` laid over `p`; an absent patch changes nothing, and
      laying the same patch twice is laying it once. */
  lemma OverLaws<T>(base: Option<T>, p: Option<T>, q: Option<T>)
    ensures Over(Over(base, p), q) == Over(base, Over(p, q))
    ensures Over(base, None) == base
    ensures Over(Over(base, p), p) == Over(base, p)
  {
  }

  /** The `endereco` map shared by restaurants and clients. */
  datatype Address = Address(
    cep: Option<string>, logradouro: Option<string>, numero: Option<string>,
    bairro: Option<string>, municipio: Option<string>, uf: Option<string>)

  const NoAddress := Address(None, None, None, None, None, None)

  /** Key-by-key merge of an address patch into a stored address. */
  function MergeAddress(a: Address, p: Address): Address {
    Address(Over(a.cep, p.cep), Over(a.logradouro, p.logradouro), Over(a.numero, p.numero),
            Over(a.bairro, p.bairro), Over(a.municipio, p.municipio), Over(a.uf, p.uf))
  }

  /** A queue as the app sends it inside `servicos.filas`. */
  datatype Queue = Queue(nome: string, ativo: bool)

  /** The `servicos` map. */
  datatype Services = Services(reserva: Option<bool>, fila: Option<bool>, filas: Option<seq<Queue>>)

  function MergeServices(s: Services, p: Services): Services {
    Services(Over(s.reserva, p.reserva), Over(s.fila, p.fila), Over(s.filas, p.filas))
  }

  /** The `horario` map; `dias` maps weekday keys to open/closed. */
  datatype Schedule = Schedule(abertura: Option<string>, fechamento: Option<string>, dias: Option<map<string, bool>>)

  function MergeSchedule(h: Schedule, p: Schedule): Schedule {
    Schedule(Over(h.abertura, p.abertura), Over(h.fechamento, p.fechamento), Over(h.dias, p.dias))
  }

  /** The `preco` map. Prices are whole numbers in this model. */
  datatype Prices = Prices(minimo: Option<int>, maximo: Option<int>)

  function MergePrices(p: Prices, q: Prices): Prices {
    Prices(Over(p.minimo, q.minimo), Over(p.maximo, q.maximo))
  }

  /** The `cardapio` reference into blob storage. */
  datatype Menu = Menu(path: string, url: string)

  /** A document of the `restaurants` collection. Timestamps are a logical clock. */
  datatype Restaurant = Restaurant(
    donoUid: string,
    nome: string,
    cnpj: string,
    telefone: Option<string>,
    endereco: Address,
    servicos: Services,
    horario: Schedule,
    preco: Prices,
    cardapio: Option<Menu>,
    avaliacaoMedia: int,
    status: string,
    createdAt: nat,
    updatedAt: nat)

  /** The `updates` object `updateRestaurant` sends to the store: one entry per top-level key it
      sets besides `updatedAt`. `telefone` and `cardapio` may be set to null (`Some(None)`). */
  datatype RestaurantUpdates = RestaurantUpdates(
    nome: Option<string>,
    cnpj: Option<string>,
    telefone: Option<Option<string>>,
    endereco: Option<Address>,
    servicos: Option<Services>,
    horario: Option<Schedule>,
    preco: Option<Prices>,
    cardapio: Option<Option<Menu>>)

  const NoUpdates := RestaurantUpdates(None, None, None, None, None, None, None, None)

  /** Field-level merge: top-level keys of the update replace, nested maps merge key by key,
      and `updatedAt` becomes `now`. This is the behaviour the update endpoint is meant to have. */
  function MergeUpdates(r: Restaurant, u: RestaurantUpdates, now: nat): Restaurant {
    r.(nome := Over(Some(r.nome), u.nome).value,
       cnpj := Over(Some(r.cnpj), u.cnpj).value,
       telefone := Over(Some(r.telefone), u.telefone).value,
       endereco := if u.endereco.Some? then MergeAddress(r.endereco, u.endereco.value) else r.endereco,
       servicos := if u.servicos.Some? then MergeServices(r.servicos, u.servicos.value) else r.servicos,
       horario := if u.horario.Some? then MergeSchedule(r.horario, u.horario.value) else r.horario,
       preco := if u.preco.Some? then MergePrices(r.preco, u.preco.value) else r.preco,
       cardapio := Over(Some(r.cardapio), u.cardapio).value,
       updatedAt := now)
  }

  /** What `DocumentReference.update(updates)` does with that object as written: every top-level
      key present replaces the stored field as a whole, nested maps included. */
  function ReplaceUpdates(r: Restaurant, u: RestaurantUpdates, now: nat): Restaurant {
    r.(nome := Over(Some(r.nome), u.nome).value,
       cnpj := Over(Some(r.cnpj), u.cnpj).value,
       telefone := Over(Some(r.telefone), u.telefone).value,
       endereco := Over(Some(r.endereco), u.endereco).value,
       servicos := Over(Some(r.servicos), u.servicos).value,
       horario := Over(Some(r.horario), u.horario).value,
       preco := Over(Some(r.preco), u.preco).value,
       cardapio := Over(Some(r.cardapio), u.cardapio).value,
       updatedAt := now)
  }

  /** A document of the `users` collection (public client profile); `kind` is the stored `type`
      key. Every key may be missing, since a merging write can create the document. */
  datatype ClientProfile = ClientProfile(
    kind: Option<string>,
    nome: Option<string>,
    nomeLower: Option<string>,
    tel: Option<string>,
    endereco: Address,
    prefs: Option<seq<string>>,
    alergias: Option<Option<string>>,
    createdAt: Option<nat>,
    updatedAt: Option<nat>)

  const NoProfile := ClientProfile(None, None, None, None, NoAddress, None, None, None, None)

  /** `set(patch, {merge: true})` on a profile: present keys win, nested `endereco` merges. */
  function MergeProfile(c: ClientProfile, p: ClientProfile): ClientProfile {
    ClientProfile(Over(c.kind, p.kind), Over(c.nome, p.nome), Over(c.nomeLower, p.nomeLower),
                  Over(c.tel, p.tel), MergeAddress(c.endereco, p.endereco), Over(c.prefs, p.prefs),
                  Over(c.alergias, p.alergias), Over(c.createdAt, p.createdAt),
                  Over(c.updatedAt, p.updatedAt))
  }

  /** A document of the `users_private` collection, holding the CPF. */
  datatype PrivateRecord = PrivateRecord(cpf: Option<string>, createdAt: Option<nat>, updatedAt: Option<nat>)

  const NoPrivate := PrivateRecord(None, None, None)

  function MergePrivate(r: PrivateRecord, p: PrivateRecord): PrivateRecord {
    PrivateRecord(Over(r.cpf, p.cpf), Over(r.createdAt, p.createdAt), Over(r.updatedAt, p.updatedAt))
  }

  // ---------------------------------------------------------------------------
  // Properties of the two write semantics
  // ---------------------------------------------------------------------------

  /** Merging: a key absent from the update keeps its stored value, a present one takes the new
      value; inside each nested map present in the update the same holds sub-key by sub-key.
      Ownership, status, rating and creation time never change, and `updatedAt` becomes `now`. */
  lemma MergeUpdatesFields(r: Restaurant, u: RestaurantUpdates, now: nat)
    ensures var m := MergeUpdates(r, u, now);
      && m.donoUid == r.donoUid && m.status == r.status && m.avaliacaoMedia == r.avaliacaoMedia
      && m.createdAt == r.createdAt && m.updatedAt == now
      && m.nome == (if u.nome.Some? then u.nome.value else r.nome)
      && m.cnpj == (if u.cnpj.Some? then u.cnpj.value else r.cnpj)
      && m.telefone == (if u.telefone.Some? then u.telefone.value else r.telefone)
      && m.cardapio == (if u.cardapio.Some? then u.cardapio.value else r.cardapio)
      && (u.endereco.None? ==> m.endereco == r.endereco)
      && (u.servicos.None? ==> m.servicos == r.servicos)
      && (u.horario.None? ==> m.horario == r.horario)
      && (u.preco.None? ==> m.preco == r.preco)
      && (u.endereco.Some? ==>
            && m.endereco.cep == (if u.endereco.value.cep.Some? then u.endereco.value.cep else r.endereco.cep)
            && m.endereco.logradouro == (if u.endereco.value.logradouro.Some? then u.endereco.value.logradouro else r.endereco.logradouro)
            && m.endereco.numero == (if u.endereco.value.numero.Some? then u.endereco.value.numero else r.endereco.numero)
            && m.endereco.bairro == (if u.endereco.value.bairro.Some? then u.endereco.value.bairro else r.endereco.bairro)
            && m.endereco.municipio == (if u.endereco.value.municipio.Some? then u.endereco.value.municipio else r.endereco.municipio)
            && m.endereco.uf == (if u.endereco.value.uf.Some? then u.endereco.value.uf else r.endereco.uf))
      && (u.horario.Some? ==>
            && m.horario.abertura == (if u.horario.value.abertura.Some? then u.horario.value.abertura else r.horario.abertura)
            && m.horario.fechamento == (if u.horario.value.fechamento.Some? then u.horario.value.fechamento else r.horario.fechamento)
            && m.horario.dias == (if u.horario.value.dias.Some? then u.horario.value.dias else r.horario.dias))
      && (u.preco.Some? ==>
            && m.preco.minimo == (if u.preco.value.minimo.Some? then u.preco.value.minimo else r.preco.minimo)
            && m.preco.maximo == (if u.preco.value.maximo.Some? then u.preco.value.maximo else r.preco.maximo))
      && (u.servicos.Some? ==>
            && m.servicos.reserva == (if u.servicos.value.reserva.Some? then u.servicos.value.reserva else r.servicos.reserva)
            && m.servicos.fila == (if u.servicos.value.fila.Some? then u.servicos.value.fila else r.servicos.fila)
            && m.servicos.filas == (if u.servicos.value.filas.Some? then u.servicos.value.filas else r.servicos.filas))
  {
  }

  /** Applying the same update twice (at the same time) is applying it once. */
  lemma MergeUpdatesIdempotent(r: Restaurant, u: RestaurantUpdates, now: nat)
    ensures MergeUpdates(MergeUpdates(r, u, now), u, now) == MergeUpdates(r, u, now)
  {
  }

  /** An update that sets nothing but the timestamp changes nothing else. */
  lemma EmptyUpdateTouchesOnlyTimestamp(r: Restaurant, now: nat)
    ensures MergeUpdates(r, NoUpdates, now) == r.(updatedAt := now)
    ensures ReplaceUpdates(r, NoUpdates, now) == r.(updatedAt := now)
  {
  }

  /** An address map with every key present. */
  predicate FullAddress(a: Address) {
    a.cep.Some? && a.logradouro.Some? && a.numero.Some? && a.bairro.Some? && a.municipio.Some? && a.uf.Some?
  }

  predicate FullUpdates(u: RestaurantUpdates) {
    && (u.endereco.Some? ==> FullAddress(u.endereco.value))
    && (u.servicos.Some? ==> var s := u.servicos.value; s.reserva.Some? && s.fila.Some? && s.filas.Some?)
    && (u.horario.Some? ==> var h := u.horario.value; h.abertura.Some? && h.fechamento.Some? && h.dias.Some?)
    && (u.preco.Some? ==> var p := u.preco.value; p.minimo.Some? && p.maximo.Some?)
  }

  /** The two semantics only differ when a nested map of the update lacks some of its keys. */
  lemma ReplaceAgreesOnFullUpdates(r: Restaurant, u: RestaurantUpdates, now: nat)
    requires FullUpdates(u)
    ensures ReplaceUpdates(r, u, now) == MergeUpdates(r, u, now)
  {
  }

  /** Replacing: an update carrying only `endereco.bairro` wipes every other address key of a
      stored restaurant, where merging keeps them. */
  lemma ReplaceLosesSiblingKeys(r: Restaurant, now: nat)
    requires FullAddress(r.endereco)
    ensures var u := NoUpdates.(endereco := Some(NoAddress.(bairro := Some("Centro"))));
      && ReplaceUpdates(r, u, now).endereco.cep == None
      && ReplaceUpdates(r, u, now).endereco.uf == None
      && MergeUpdates(r, u, now).endereco.cep == r.endereco.cep
      && MergeUpdates(r, u, now).endereco.uf == r.endereco.uf
      && ReplaceUpdates(r, u, now) != MergeUpdates(r, u, now)
  {
  }

  /** Merging a client profile: every present key and address sub-key takes the new value, and
      every absent one keeps the stored value. */
  lemma MergeProfileProperties(c: ClientProfile, p: ClientProfile)
    ensures MergeProfile(c, p).kind == (if p.kind.Some? then p.kind else c.kind)
    ensures MergeProfile(c, p).nome == (if p.nome.Some? then p.nome else c.nome)
    ensures MergeProfile(c, p).nomeLower == (if p.nomeLower.Some? then p.nomeLower else c.nomeLower)
    ensures MergeProfile(c, p).tel == (if p.tel.Some? then p.tel else c.tel)
    ensures MergeProfile(c, p).prefs == (if p.prefs.Some? then p.prefs else c.prefs)
    ensures MergeProfile(c, p).alergias == (if p.alergias.Some? then p.alergias else c.alergias)
    ensures MergeProfile(c, p).createdAt == (if p.createdAt.Some? then p.createdAt else c.createdAt)
    ensures MergeProfile(c, p).updatedAt == (if p.updatedAt.Some? then p.updatedAt else c.updatedAt)
    ensures MergeProfile(c, p).endereco.cep == (if p.endereco.cep.Some? then p.endereco.cep else c.endereco.cep)
    ensures MergeProfile(c, p).endereco.logradouro == (if p.endereco.logradouro.Some? then p.endereco.logradouro else c.endereco.logradouro)
    ensures MergeProfile(c, p).endereco.numero == (if p.endereco.numero.Some? then p.endereco.numero else c.endereco.numero)
    ensures MergeProfile(c, p).endereco.bairro == (if p.endereco.bairro.Some? then p.endereco.bairro else c.endereco.bairro)
    ensures MergeProfile(c, p).endereco.municipio == (if p.endereco.municipio.Some? then p.endereco.municipio else c.endereco.municipio)
    ensures MergeProfile(c, p).endereco.uf == (if p.endereco.uf.Some? then p.endereco.uf else c.endereco.uf)
  {
  }

  /** Merging the same profile patch twice is merging it once, and the empty patch changes nothing. */
  lemma MergeProfileIdempotent(c: ClientProfile, p: ClientProfile)
    ensures MergeProfile(MergeProfile(c, p), p) == MergeProfile(c, p)
    ensures MergeProfile(c, NoProfile) == c
  {
  }
}
