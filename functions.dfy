/**
 * The HTTP handlers of the Cloud Functions module (functions/src/index.ts) over an
 * in-memory document store: the `restaurants`, `users` and `users_private` collections
 * are maps from document id to document.
 *
 * Each handler is a method of `Backend` returning the HTTP status it answers with.
 * The verified caller (`None` when the bearer token is missing or rejected), the store's
 * auto-generated id and the server clock are parameters.
 *
 * Request bodies are typed. A field the body leaves out or sets to null is given as ""
 * (false, 0, `None`): the handlers treat those the same way, except where presence is
 * checked with `in`, where the field is an `Option`.
 */
module CloudFunctions {
  import opened Wrappers
  import opened Text
  import opened Documents
  import opened RestaurantQueries

  datatype Verb = GET | POST | PUT | PATCH | DELETE

  /** Why a request was answered 400. */
  datatype Rejection =
    | NomeRequired | CnpjInvalid | UfMunicipioRequired | TimesInvalid | PriceRangeInvalid
    | IdRequired | BodyInvalid | OpeningInvalid | ClosingInvalid | PriceOrderInvalid
    | CpfInvalid | CepInvalid | NomeInvalid

  // ---------------------------------------------------------------------------
  // Field helpers
  // ---------------------------------------------------------------------------

  /** `isTime`: `/^\d{2}:\d{2}$/`, two digits, a colon, two digits and nothing else. */
  predicate IsTime(s: string) {
    |s| == 5 && IsDigit(s[0]) && IsDigit(s[1]) && s[2] == ':' && IsDigit(s[3]) && IsDigit(s[4])
  }

  /** `isNonEmptyString` on a string: something is left after trimming. */
  predicate IsNonEmptyString(s: string) { Trim(s) != "" }

  /** The backend's time check looks only at the shape: hours and minutes out of range pass,
      a one-digit hour does not. */
  lemma IsTimeIsShapeOnly()
    ensures IsTime("24:00") && IsTime("99:99") && IsTime("08:00")
    ensures !IsTime("9:00") && !IsTime("08:00 ") && !IsTime("08h00")
  {
  }

  /** A string passes `IsTime` exactly when it is `dd:dd` over the ten ASCII digits. */
  lemma IsTimeShape(s: string)
    ensures IsTime(s) <==> exists h1, h2, m1, m2 :: IsDigit(h1) && IsDigit(h2) && IsDigit(m1) && IsDigit(m2)
                                                  && s == [h1, h2, ':', m1, m2]
  {
    if IsTime(s) {
      assert s == [s[0], s[1], ':', s[3], s[4]];
    }
  }

  // ---------------------------------------------------------------------------
  // createRestaurant
  // ---------------------------------------------------------------------------

  /** The body of `createRestaurant`. */
  datatype RestaurantInput = RestaurantInput(
    nome: string, cnpj: string, telefone: string, cep: string, endereco: string, bairro: string,
    numero: string, uf: string, municipio: string, reserva: bool, fila: bool, filas: seq<Queue>,
    diasFuncionamento: Option<map<string, bool>>, horarioAbertura: string, horarioFechamento: string,
    precoMinimo: int, precoMaximo: int, cardapio: Option<Menu>)

  /** All seven days closed, used when the body has no `diasFuncionamento`. */
  const AllDaysClosed: map<string, bool> :=
    map["dom" := false, "seg" := false, "ter" := false, "qua" := false,
        "qui" := false, "sex" := false, "sab" := false]

  /** The validations of `createRestaurant`, in the order it runs them; the first failing one
      is reported. */
  function CreateRestaurantCheck(b: RestaurantInput): (r: Option<Rejection>)
  {
    if b.nome == "" then Some(NomeRequired)
    else if |OnlyDigits(b.cnpj)| != 14 then Some(CnpjInvalid)
    else if b.uf == "" || b.municipio == "" then Some(UfMunicipioRequired)
    else if !IsTime(b.horarioAbertura) || !IsTime(b.horarioFechamento) then Some(TimesInvalid)
    else if b.precoMinimo > b.precoMaximo then Some(PriceRangeInvalid)
    else None
  }

  /** The document `createRestaurant` inserts. */
  function NewRestaurant(b: RestaurantInput, owner: string, now: nat): Restaurant {
    Restaurant(
      donoUid := owner,
      nome := b.nome,
      cnpj := OnlyDigits(b.cnpj),
      telefone := if b.telefone == "" then None else Some(OnlyDigits(b.telefone)),
      endereco := Address(Some(OnlyDigits(b.cep)), Some(b.endereco), Some(b.numero), Some(b.bairro),
                          Some(b.municipio), Some(b.uf)),
      servicos := Services(Some(b.reserva), Some(b.fila), Some(b.filas)),
      horario := Schedule(Some(b.horarioAbertura), Some(b.horarioFechamento),
                          Some(b.diasFuncionamento.GetOr(AllDaysClosed))),
      preco := Prices(Some(b.precoMinimo), Some(b.precoMaximo)),
      cardapio := b.cardapio,
      avaliacaoMedia := 0,
      status := "ativo",
      createdAt := now,
      updatedAt := now)
  }

  /** What every accepted creation stores: an active, unrated listing owned by the caller, with a
      14-digit `cnpj`, well-shaped times, an ordered price range and a complete address. */
  predicate FreshListing(r: Restaurant, owner: string, now: nat) {
    && r.donoUid == owner && r.status == "ativo" && r.avaliacaoMedia == 0
    && r.createdAt == now && r.updatedAt == now
    && r.nome != "" && |r.cnpj| == 14 && AllDigits(r.cnpj)
    && FullAddress(r.endereco) && r.endereco.uf != Some("") && r.endereco.municipio != Some("")
    && r.horario.abertura.Some? && IsTime(r.horario.abertura.value)
    && r.horario.fechamento.Some? && IsTime(r.horario.fechamento.value)
    && r.preco.minimo.Some? && r.preco.maximo.Some? && r.preco.minimo.value <= r.preco.maximo.value
  }

  /** A body the checks accept becomes such a listing, and the checks accept every body whose
      listing would be one. */
  lemma CreateRestaurantCheckSound(b: RestaurantInput, owner: string, now: nat)
    ensures CreateRestaurantCheck(b).None? <==> FreshListing(NewRestaurant(b, owner, now), owner, now)
  {
  }

  /** Some restaurant already holds this (normalised) CNPJ, whatever its status. */
  predicate CnpjTaken(rs: map<Id, Restaurant>, cnpj: string) {
    exists id :: id in rs && rs[id].cnpj == cnpj
  }

  predicate CnpjsUnique(rs: map<Id, Restaurant>) {
    forall i, j :: i in rs && j in rs && rs[i].cnpj == rs[j].cnpj ==> i == j
  }

  // ---------------------------------------------------------------------------
  // listRestaurants
  // ---------------------------------------------------------------------------

  /** Query-string parameters of `listRestaurants`. `reserva` and `fila` are checked for presence;
      `limit` is `None` when absent or not a finite number. */
  datatype ListParams = ListParams(
    uf: string, municipio: string, reserva: Option<string>, fila: Option<string>,
    q: string, limit: Option<int>, cursorId: string, cursorNome: string)

  datatype Listing =
    | SearchPage(q: string, items: seq<Item>, nextCursorNome: Option<string>, hasMore: bool)
    | DefaultPage(items: seq<Item>, nextCursorId: Option<Id>, hasMore: bool)

  const DefaultLimit := 20
  const MaxLimit := 50

  /** The page size: 20 by default, otherwise the requested size brought into [1, 50]. */
  function ClampLimit(raw: Option<int>): (l: nat)
    ensures 1 <= l <= MaxLimit
    ensures raw.None? ==> l == DefaultLimit
    ensures raw.Some? && 1 <= raw.value <= MaxLimit ==> l == raw.value
    ensures raw.Some? && raw.value < 1 ==> l == 1
    ensures raw.Some? && raw.value > MaxLimit ==> l == MaxLimit
  {
    var n := raw.GetOr(DefaultLimit);
    var m := if n < MaxLimit then n else MaxLimit;
    if m < 1 then 1 else m
  }

  /** A boolean query parameter: present and equal to "true" ignoring case. */
  function ParseFlag(s: Option<string>): (r: Option<bool>)
    ensures r.Some? <==> s.Some?
    ensures r == Some(true) <==> s.Some? && |s.value| == 4 && Lower(s.value) == "true"
  {
    if s.Some? then Some(Lower(s.value) == "true") else None
  }

  function ListFilters(p: ListParams): Filters {
    Filters(if p.uf == "" then None else Some(p.uf),
            if p.municipio == "" then None else Some(p.municipio),
            ParseFlag(p.reserva), ParseFlag(p.fila))
  }

  /** Search mode: names from `t` to `t + "\uf8ff"`, or after the name cursor when there is one
      (the later start cursor replaces `startAt`). */
  function SearchQuery(f: Filters, t: string, cursorNome: string, limit: nat): Query {
    Query(f, ByNomeAsc, if cursorNome == "" then AtNome(t) else AfterNome(cursorNome),
          Some(t + [RangeTop]), limit)
  }

  /** The cursor document of default mode, if the id names one. */
  function CursorItem(rs: map<Id, Restaurant>, cursorId: string): Option<Item> {
    if cursorId != "" && cursorId in rs then Some(Item(cursorId, rs[cursorId])) else None
  }

  /** Default mode: newest first, after the cursor document if it exists. */
  function BrowseQuery(f: Filters, cursor: Option<Item>, limit: nat): Query {
    Query(f, ByCreatedAtDesc, if cursor.Some? then AfterItem(cursor.value) else FromFirst, None, limit)
  }

  /** A name admitted by a search query is never empty, so the name cursor of a non-empty page
      is always present. */
  lemma SearchNamesNonEmpty(rs: map<Id, Restaurant>, f: Filters, t: string, cursorNome: string, limit: nat, x: Item)
    requires t != ""
    requires x in Candidates(rs, SearchQuery(f, t, cursorNome, limit))
    ensures x.doc.nome != ""
  {
  }

  /** Without a name cursor, every name found by a search extends the search text. */
  lemma SearchFindsPrefixes(rs: map<Id, Restaurant>, f: Filters, t: string, limit: nat, x: Item)
    requires x in Candidates(rs, SearchQuery(f, t, "", limit))
    ensures IsPrefix(t, x.doc.nome)
  {
    SearchRangeIsPrefixMatch(t, x.doc.nome);
  }

  /** Every active matching restaurant whose name is the search text followed by ordinary
      characters is found by the search (when the page has room for it). */
  lemma SearchAdmitsExtensions(rs: map<Id, Restaurant>, f: Filters, t: string, limit: nat, id: Id, rest: string)
    requires id in rs && Matches(rs[id], f) && rs[id].nome == t + rest
    requires rest == [] || rest[0] < RangeTop
    ensures Item(id, rs[id]) in Candidates(rs, SearchQuery(f, t, "", limit))
  {
    var n := t + rest;
    assert n[..|t|] == t;
    if rest != [] {
      assert n[|t|] == rest[0];
    }
    SearchRangeIsPrefixMatch(t, n);
  }

  // ---------------------------------------------------------------------------
  // updateRestaurant
  // ---------------------------------------------------------------------------

  /** The body of `updateRestaurant`; `None` marks a key the body does not have. `telefone`
      and `cardapio` may be present and empty; a present `endereco`, `servicos`, `horario` or
      `preco` that is null is given as absent, as the handler skips it. */
  datatype RestaurantPatch = RestaurantPatch(
    nome: Option<string>, cnpj: Option<string>, telefone: Option<string>,
    endereco: Option<Address>, servicos: Option<Services>, horario: Option<Schedule>,
    preco: Option<Prices>, cardapio: Option<Option<Menu>>)

  /** A present, non-empty time that is not `HH:mm`-shaped. */
  predicate BadTime(t: Option<string>) { t.Some? && t.value != "" && !IsTime(t.value) }

  /** The `updates` object `updateRestaurant` builds, or the first reason to answer 400. */
  function BuildUpdates(p: RestaurantPatch): (r: Result<RestaurantUpdates, Rejection>)
  {
    if p.horario.Some? && BadTime(p.horario.value.abertura) then Failure(OpeningInvalid)
    else if p.horario.Some? && BadTime(p.horario.value.fechamento) then Failure(ClosingInvalid)
    else if p.preco.Some? && p.preco.value.minimo.Some? && p.preco.value.maximo.Some?
            && p.preco.value.minimo.value > p.preco.value.maximo.value then Failure(PriceOrderInvalid)
    else
      Success(RestaurantUpdates(
        nome := p.nome,
        cnpj := if p.cnpj.Some? then Some(OnlyDigits(p.cnpj.value)) else None,
        telefone := if p.telefone.None? then None
                    else if p.telefone.value == "" then Some(None)
                    else Some(Some(OnlyDigits(p.telefone.value))),
        endereco := if p.endereco.None? then None
                    else var e := p.endereco.value;
                         Some(e.(cep := if e.cep.Some? then Some(OnlyDigits(e.cep.value)) else None)),
        servicos := p.servicos,
        horario := p.horario,
        preco := p.preco,
        cardapio := p.cardapio))
  }

  /** The handler's filling of `updates`, one key of the body at a time, stopping at the first
      failed check. */
  method FillUpdates(data: RestaurantPatch) returns (r: Result<RestaurantUpdates, Rejection>)
    ensures r == BuildUpdates(data)
  {
    var updates := NoUpdates;
    if data.nome.Some? {
      updates := updates.(nome := data.nome);
    }
    if data.cnpj.Some? {
      updates := updates.(cnpj := Some(OnlyDigits(data.cnpj.value)));
    }
    if data.telefone.Some? {
      updates := updates.(telefone := Some(if data.telefone.value == "" then None
                                           else Some(OnlyDigits(data.telefone.value))));
    }
    if data.endereco.Some? {
      var e := data.endereco.value;
      updates := updates.(endereco := Some(e.(cep := if e.cep.Some? then Some(OnlyDigits(e.cep.value)) else None)));
    }
    if data.servicos.Some? {
      updates := updates.(servicos := data.servicos);
    }
    if data.horario.Some? {
      var h := data.horario.value;
      if BadTime(h.abertura) {
        return Failure(OpeningInvalid);
      }
      if BadTime(h.fechamento) {
        return Failure(ClosingInvalid);
      }
      updates := updates.(horario := data.horario);
    }
    if data.preco.Some? {
      var pr := data.preco.value;
      if pr.minimo.Some? && pr.maximo.Some? && pr.minimo.value > pr.maximo.value {
        return Failure(PriceOrderInvalid);
      }
      updates := updates.(preco := data.preco);
    }
    if data.cardapio.Some? {
      updates := updates.(cardapio := data.cardapio);
    }
    return Success(updates);
  }

  /** What the validation guarantees about an accepted update: times it sets are empty or
      `HH:mm`-shaped, a price range it sets in full is ordered, and `cnpj` and `cep` are digits.
      Exactly the keys present in the body are present in the update. */
  lemma BuildUpdatesGuarantees(p: RestaurantPatch)
    requires BuildUpdates(p).Success?
    ensures var u := BuildUpdates(p).value;
      && (u.horario.Some? && u.horario.value.abertura.Some? ==>
            u.horario.value.abertura.value == "" || IsTime(u.horario.value.abertura.value))
      && (u.horario.Some? && u.horario.value.fechamento.Some? ==>
            u.horario.value.fechamento.value == "" || IsTime(u.horario.value.fechamento.value))
      && (u.preco.Some? && u.preco.value.minimo.Some? && u.preco.value.maximo.Some? ==>
            u.preco.value.minimo.value <= u.preco.value.maximo.value)
      && (u.cnpj.Some? ==> AllDigits(u.cnpj.value))
      && (u.endereco.Some? && u.endereco.value.cep.Some? ==> AllDigits(u.endereco.value.cep.value))
      && (u.nome.Some? <==> p.nome.Some?) && (u.cnpj.Some? <==> p.cnpj.Some?)
      && (u.telefone.Some? <==> p.telefone.Some?) && (u.endereco.Some? <==> p.endereco.Some?)
      && (u.servicos.Some? <==> p.servicos.Some?) && (u.horario.Some? <==> p.horario.Some?)
      && (u.preco.Some? <==> p.preco.Some?) && (u.cardapio.Some? <==> p.cardapio.Some?)
  {
  }

  /** The rejections, both ways: a body is refused exactly when it sets a non-empty malformed
      time or a full but inverted price range. */
  lemma BuildUpdatesRejects(p: RestaurantPatch)
    ensures BuildUpdates(p).Failure? <==>
      || (p.horario.Some? && (BadTime(p.horario.value.abertura) || BadTime(p.horario.value.fechamento)))
      || (p.preco.Some? && p.preco.value.minimo.Some? && p.preco.value.maximo.Some?
          && p.preco.value.minimo.value > p.preco.value.maximo.value)
  {
  }

  /** An accepted update can still leave a stored restaurant with an inverted price range (it
      checks only the keys it carries) or with a CNPJ another restaurant holds (it checks neither
      length nor uniqueness). */
  lemma UpdatesCanBreakStoredRules(a: Restaurant, b: Restaurant, now: nat)
    requires a.preco == Prices(Some(20), Some(80)) && a.cnpj != b.cnpj
    ensures var p := RestaurantPatch(None, Some(b.cnpj), None, None, None, None, Some(Prices(Some(100), None)), None);
      && BuildUpdates(p).Success?
      && var m := MergeUpdates(a, BuildUpdates(p).value, now);
      && m.preco.minimo.value > m.preco.maximo.value
      && (AllDigits(b.cnpj) ==> m.cnpj == b.cnpj)
  {
    var p := RestaurantPatch(None, Some(b.cnpj), None, None, None, None, Some(Prices(Some(100), None)), None);
    if AllDigits(b.cnpj) {
      OnlyDigitsOfDigits(b.cnpj);
    }
  }

  // ---------------------------------------------------------------------------
  // Clients
  // ---------------------------------------------------------------------------

  /** The body of `createClient`. `prefs` is `None` when it is not an array. */
  datatype ClientInput = ClientInput(
    nome: string, telefone: string, cpf: string, cep: string, endereco: string, bairro: string,
    numero: string, uf: string, municipio: string, prefs: Option<seq<string>>, alergias: string)

  /** The validations of `createClient`, in order. */
  function CreateClientCheck(b: ClientInput): (r: Option<Rejection>)
  {
    if !IsNonEmptyString(Trim(b.nome)) then Some(NomeRequired)
    else if |OnlyDigits(b.cpf)| != 11 then Some(CpfInvalid)
    else if |OnlyDigits(b.cep)| != 8 then Some(CepInvalid)
    else if !IsNonEmptyString(b.uf) || !IsNonEmptyString(b.municipio) then Some(UfMunicipioRequired)
    else None
  }

  /** `alergias`: trimmed text, or null when nothing is left. */
  function Allergies(s: string): (r: Option<string>)
    ensures r.None? <==> forall k :: 0 <= k < |s| ==> IsSpace(s[k])
    ensures r.Some? ==> r.value != "" && !IsSpace(r.value[0]) && !IsSpace(r.value[|r.value| - 1])
    ensures r.Some? ==> Trim(r.value) == r.value && r.value == Trim(s)
  {
    TrimEmptyIff(s);
    TrimSlice(s);
    TrimIdempotent(s);
    if IsNonEmptyString(s) then Some(Trim(s)) else None
  }

  /** The public profile `createClient` writes (with a merge) to `users/{uid}`. */
  function NewProfile(b: ClientInput, now: nat): ClientProfile {
    var nome := Trim(b.nome);
    ClientProfile(
      kind := Some("cliente"),
      nome := Some(nome),
      nomeLower := Some(Lower(nome)),
      tel := Some(OnlyDigits(b.telefone)),
      endereco := Address(Some(OnlyDigits(b.cep)), Some(b.endereco), Some(b.numero), Some(b.bairro),
                          Some(b.municipio), Some(b.uf)),
      prefs := Some(b.prefs.GetOr([])),
      alergias := Some(Allergies(b.alergias)),
      createdAt := Some(now),
      updatedAt := Some(now))
  }

  /** A client profile as `createClient` leaves it: the trimmed name with its lower-case form, a
      digits-only phone and an 8-digit CEP, whatever was stored before. */
  lemma CreatedProfileShape(old_: ClientProfile, b: ClientInput, now: nat)
    requires CreateClientCheck(b).None?
    ensures var c := MergeProfile(old_, NewProfile(b, now));
      && c == NewProfile(b, now)
      && c.kind == Some("cliente") && c.nome == Some(Trim(b.nome)) && c.nome != Some("")
      && c.nomeLower == Some(Lower(c.nome.value))
      && c.tel.Some? && AllDigits(c.tel.value)
      && c.endereco.cep.Some? && |c.endereco.cep.value| == 8 && AllDigits(c.endereco.cep.value)
      && c.createdAt == Some(now)
  {
  }

  /** Another account than `uid` holds this CPF. */
  predicate CpfHeldByOther(ps: map<Id, PrivateRecord>, cpf: string, uid: Id) {
    exists u :: u in ps && ps[u].cpf == Some(cpf) && u != uid
  }

  predicate CpfsUnique(ps: map<Id, PrivateRecord>) {
    forall u, v :: u in ps && v in ps && ps[u].cpf.Some? && ps[u].cpf == ps[v].cpf ==> u == v
  }

  /** `u` holds this CPF and sorts before every other holder: the document that
      `where("cpf", "==", cpf).limit(1)` returns, the store's default order being by document id. */
  predicate FirstCpfHolder(ps: map<Id, PrivateRecord>, cpf: string, u: Id) {
    && u in ps && ps[u].cpf == Some(cpf)
    && forall v :: v in ps && ps[v].cpf == Some(cpf) && v != u ==> Less(u, v)
  }

  /** The duplicate-CPF check refuses the request: the first holder is another account. */
  predicate CpfConflict(ps: map<Id, PrivateRecord>, cpf: string, uid: Id) {
    exists u :: u in ps && FirstCpfHolder(ps, cpf, u) && u != uid
  }

  lemma FirstCpfHolderUnique(ps: map<Id, PrivateRecord>, cpf: string, u: Id, w: Id)
    requires FirstCpfHolder(ps, cpf, u) && FirstCpfHolder(ps, cpf, w)
    ensures u == w
  {
    if u != w {
      LessAsymmetric(u, w);
    }
  }

  /** A non-empty set of ids has a least element in the store's order. */
  lemma {:induction false} LeastIdExists(s: set<Id>) returns (m: Id)
    requires s != {}
    ensures m in s
    ensures forall v :: v in s && v != m ==> Less(m, v)
    decreases s
  {
    var x :| x in s;
    if s == {x} {
      m := x;
    } else {
      var m' := LeastIdExists(s - {x});
      LessTotal(x, m');
      if Less(x, m') {
        m := x;
        forall v | v in s && v != x
          ensures Less(x, v)
        {
          if v != m' {
            LessTransitive(x, m', v);
          }
        }
      } else {
        m := m';
      }
    }
  }

  /** The 409 answer, in terms of holders: some other account holds the CPF and the caller is
      not the one the query returns first. With duplicates the caller can be that one and pass. */
  lemma CpfConflictIff(ps: map<Id, PrivateRecord>, cpf: string, uid: Id)
    ensures CpfConflict(ps, cpf, uid) <==> CpfHeldByOther(ps, cpf, uid) && !FirstCpfHolder(ps, cpf, uid)
  {
    if CpfConflict(ps, cpf, uid) {
      var u :| u in ps && FirstCpfHolder(ps, cpf, u) && u != uid;
      if FirstCpfHolder(ps, cpf, uid) {
        FirstCpfHolderUnique(ps, cpf, u, uid);
      }
    }
    if CpfHeldByOther(ps, cpf, uid) && !FirstCpfHolder(ps, cpf, uid) {
      var holders := set u | u in ps && ps[u].cpf == Some(cpf);
      var o :| o in ps && ps[o].cpf == Some(cpf) && o != uid;
      assert o in holders;
      var m := LeastIdExists(holders);
      assert FirstCpfHolder(ps, cpf, m);
    }
  }

  /** While CPFs are unique the check refuses exactly the CPFs another account holds. */
  lemma CpfConflictUnderUniqueness(ps: map<Id, PrivateRecord>, cpf: string, uid: Id)
    requires CpfsUnique(ps)
    ensures CpfConflict(ps, cpf, uid) <==> CpfHeldByOther(ps, cpf, uid)
  {
    CpfConflictIff(ps, cpf, uid);
  }

  /** Two accounts holding one CPF (a state the sign-up path's merging write can reach): the
      first by id passes the check although another account holds the CPF; the second is refused. */
  lemma DuplicateCpfFirstHolderPasses(x: string, r1: PrivateRecord, r2: PrivateRecord)
    requires r1.cpf == Some(x) && r2.cpf == Some(x)
    ensures var ps := map["u1" := r1, "u2" := r2];
      && !CpfsUnique(ps)
      && CpfHeldByOther(ps, x, "u1") && !CpfConflict(ps, x, "u1")
      && CpfConflict(ps, x, "u2")
  {
    var ps := map["u1" := r1, "u2" := r2];
    assert Less("u1", "u2");
    assert FirstCpfHolder(ps, x, "u1");
    CpfConflictIff(ps, x, "u1");
  }

  /** `where("cpf", "==", cpf).limit(1).get()` on `users_private`: the first holder, if any. */
  method QueryCpf(ps: map<Id, PrivateRecord>, cpf: string) returns (h: Option<Id>)
    ensures h.None? <==> forall u :: u in ps ==> ps[u].cpf != Some(cpf)
    ensures h.Some? ==> FirstCpfHolder(ps, cpf, h.value)
  {
    var holders := set u | u in ps && ps[u].cpf == Some(cpf);
    var rest := holders;
    h := None;
    while rest != {}
      invariant rest <= holders
      invariant h.None? ==> rest == holders
      invariant h.Some? ==> h.value in holders && h.value !in rest
      invariant h.Some? ==> forall v :: v in holders && v !in rest && v != h.value ==> Less(h.value, v)
      decreases rest
    {
      var x :| x in rest;
      if h.None? {
        h := Some(x);
      } else if Less(x, h.value) {
        var m := h.value;
        forall v | v in holders && v !in rest - {x} && v != x
          ensures Less(x, v)
        {
          if v != m {
            LessTransitive(x, m, v);
          }
        }
        h := Some(x);
      } else {
        LessTotal(x, h.value);
      }
      rest := rest - {x};
    }
    assert forall u :: u in ps && ps[u].cpf == Some(cpf) ==> u in holders;
  }

  /** The answer of the duplicate check (`!dup.empty && dup.docs[0].id !== uid`) is the conflict. */
  lemma QueryAnswersConflict(ps: map<Id, PrivateRecord>, cpf: string, uid: Id, h: Option<Id>)
    requires h.None? <==> forall u :: u in ps ==> ps[u].cpf != Some(cpf)
    requires h.Some? ==> FirstCpfHolder(ps, cpf, h.value)
    ensures (h.Some? && h.value != uid) <==> CpfConflict(ps, cpf, uid)
  {
    if CpfConflict(ps, cpf, uid) {
      var u :| u in ps && FirstCpfHolder(ps, cpf, u) && u != uid;
      FirstCpfHolderUnique(ps, cpf, u, h.value);
    }
  }

  /** A write the check let through keeps CPFs unique whenever they were. */
  lemma CpfWriteKeepsUniqueIfUnique(ps: map<Id, PrivateRecord>, uid: Id, cpf: string, rec: PrivateRecord)
    requires !CpfConflict(ps, cpf, uid)
    requires rec.cpf == Some(cpf)
    ensures CpfsUnique(ps) ==> CpfsUnique(ps[uid := rec])
  {
    if CpfsUnique(ps) {
      CpfConflictUnderUniqueness(ps, cpf, uid);
      CpfWriteKeepsUnique(ps, uid, cpf, rec);
    }
  }

  /** Writing a CPF no other account holds into `uid`'s private record keeps CPFs unique. */
  lemma CpfWriteKeepsUnique(ps: map<Id, PrivateRecord>, uid: Id, cpf: string, rec: PrivateRecord)
    requires CpfsUnique(ps) && !CpfHeldByOther(ps, cpf, uid)
    requires rec.cpf == Some(cpf)
    ensures CpfsUnique(ps[uid := rec])
  {
    var ps' := ps[uid := rec];
    forall u, v | u in ps' && v in ps' && ps'[u].cpf.Some? && ps'[u].cpf == ps'[v].cpf
      ensures u == v
    {
      if u != uid && v != uid {
        assert ps[u].cpf == ps[v].cpf;
      }
    }
  }

  /** The body of `updateClient`; `None` marks a key the body does not have (a null
      `endereco` or a non-array `prefs` is skipped, so is given as absent). */
  datatype ClientPatch = ClientPatch(
    nome: Option<string>, telefone: Option<string>, endereco: Option<Address>,
    prefs: Option<seq<string>>, alergias: Option<string>, cpf: Option<string>)

  /** The validations of `updateClient` that need no lookup, in order. */
  function UpdateClientCheck(d: ClientPatch): (r: Option<Rejection>)
  {
    if d.nome.Some? && Trim(d.nome.value) == "" then Some(NomeInvalid)
    else if d.endereco.Some? && d.endereco.value.cep.Some? && |OnlyDigits(d.endereco.value.cep.value)| != 8
    then Some(CepInvalid)
    else if d.cpf.Some? && |OnlyDigits(d.cpf.value)| != 11 then Some(CpfInvalid)
    else None
  }

  /** The `updates` object `updateClient` merges into `users/{uid}`. */
  function ProfileUpdates(d: ClientPatch, now: nat): ClientProfile {
    ClientProfile(
      kind := None,
      nome := if d.nome.Some? then Some(Trim(d.nome.value)) else None,
      nomeLower := if d.nome.Some? then Some(Lower(Trim(d.nome.value))) else None,
      tel := if d.telefone.Some? then Some(OnlyDigits(d.telefone.value)) else None,
      endereco := if d.endereco.None? then NoAddress
                  else var e := d.endereco.value;
                       e.(cep := if e.cep.Some? then Some(OnlyDigits(e.cep.value)) else None),
      prefs := d.prefs,
      alergias := if d.alergias.Some? then Some(Allergies(d.alergias.value)) else None,
      createdAt := None,
      updatedAt := Some(now))
  }

  /** An accepted client update keeps what it does not name: type, creation time and every
      address key it does not carry; it keeps `nomeLower` in step with `nome`. */
  lemma ProfileUpdateKeepsRest(c: ClientProfile, d: ClientPatch, now: nat)
    requires UpdateClientCheck(d).None?
    ensures var m := MergeProfile(c, ProfileUpdates(d, now));
      && m.kind == c.kind && m.createdAt == c.createdAt && m.updatedAt == Some(now)
      && (d.nome.None? ==> m.nome == c.nome && m.nomeLower == c.nomeLower)
      && (d.nome.Some? ==>
            m.nome == Some(Trim(d.nome.value)) && m.nome != Some("") && m.nomeLower == Some(Lower(m.nome.value)))
      && (d.endereco.None? ==> m.endereco == c.endereco)
      && (d.endereco.Some? && d.endereco.value.uf.None? ==> m.endereco.uf == c.endereco.uf)
      && (d.endereco.Some? && d.endereco.value.cep.None? ==> m.endereco.cep == c.endereco.cep)
      && (d.endereco.Some? && d.endereco.value.cep.Some? ==>
            m.endereco.cep.Some? && |m.endereco.cep.value| == 8)
      && (d.prefs.None? ==> m.prefs == c.prefs) && (d.alergias.None? ==> m.alergias == c.alergias)
  {
  }

  /** The id a client endpoint acts on: "me" (the default) stands for the caller. */
  function ResolveId(idParam: Option<string>, uid: Id): (id: string)
    ensures idParam.None? || idParam == Some("me") ==> id == uid
    ensures idParam.Some? && idParam != Some("me") ==> id == idParam.value
  {
    var raw := idParam.GetOr("me");
    if raw == "me" then uid else raw
  }

  /** A client endpoint acts on the caller's own profile exactly when the id is absent, "me",
      or the caller's own id; any other id is someone else's. */
  lemma ResolveIdOwnAccess(idParam: Option<string>, uid: Id)
    ensures ResolveId(idParam, uid) == uid <==> idParam.None? || idParam == Some("me") || idParam == Some(uid)
  {
  }

  // ---------------------------------------------------------------------------
  // The handlers
  // ---------------------------------------------------------------------------

  class Backend {
    var restaurants: map<Id, Restaurant>
    var users: map<Id, ClientProfile>
    var usersPrivate: map<Id, PrivateRecord>

    /** Restaurant document ids are never empty. */
    ghost predicate Valid()
      reads this
    {
      "" !in restaurants
    }

    constructor ()
      ensures Valid()
      ensures restaurants == map[] && users == map[] && usersPrivate == map[]
    {
      restaurants := map[];
      users := map[];
      usersPrivate := map[];
    }

    /** POST /createRestaurant. `freshId` is the id the store generates for the new document. */
    method CreateRestaurant(verb: Verb, caller: Option<Id>, b: RestaurantInput, freshId: Id, now: nat)
      returns (code: int, id: Option<Id>)
      requires Valid()
      requires freshId != "" && freshId !in restaurants
      modifies this
      ensures Valid()
      ensures verb != POST ==> code == 405
      ensures verb == POST && caller.None? ==> code == 401
      ensures verb == POST && caller.Some? && CreateRestaurantCheck(b).Some? ==> code == 400
      ensures (verb == POST && caller.Some? && CreateRestaurantCheck(b).None?
               && CnpjTaken(old(restaurants), OnlyDigits(b.cnpj))) ==> code == 409
      ensures code == 201 <==> (verb == POST && caller.Some? && CreateRestaurantCheck(b).None?
                                && !CnpjTaken(old(restaurants), OnlyDigits(b.cnpj)))
      ensures code == 201 ==>
                id == Some(freshId) && restaurants == old(restaurants)[freshId := NewRestaurant(b, caller.value, now)]
      ensures code != 201 ==> id.None? && restaurants == old(restaurants)
      ensures CnpjsUnique(old(restaurants)) ==> CnpjsUnique(restaurants)
      ensures users == old(users) && usersPrivate == old(usersPrivate)
    {
      id := None;
      if verb != POST {
        return 405, None;
      }
      if caller.None? {
        return 401, None;
      }
      var check := CreateRestaurantCheck(b);
      if check.Some? {
        return 400, None;
      }
      var cnpj := OnlyDigits(b.cnpj);
      if CnpjTaken(restaurants, cnpj) {
        return 409, None;
      }
      var doc := NewRestaurant(b, caller.value, now);
      restaurants := restaurants[freshId := doc];
      code, id := 201, Some(freshId);
    }

    /** GET /listRestaurants: search mode when the trimmed `q` is non-empty, default mode
        otherwise. The query is built filter by filter. */
    method ListRestaurants(p: ListParams) returns (res: Listing)
      requires Valid()
      ensures var f, limit, t := ListFilters(p), ClampLimit(p.limit), Trim(p.q);
        && (t != "" ==> res.SearchPage? && res.q == t && SearchResult(res, f, t, p.cursorNome, limit))
        && (t == "" ==> res.DefaultPage? && BrowseResult(res, f, p.cursorId, limit))
    {
      var filters := Filters(None, None, None, None);
      if p.uf != "" {
        filters := filters.(uf := Some(p.uf));
      }
      if p.municipio != "" {
        filters := filters.(municipio := Some(p.municipio));
      }
      if p.reserva.Some? {
        filters := filters.(reserva := Some(Lower(p.reserva.value) == "true"));
      }
      if p.fila.Some? {
        filters := filters.(fila := Some(Lower(p.fila.value) == "true"));
      }
      assert filters == ListFilters(p);
      var t := Trim(p.q);
      var limit := ClampLimit(p.limit);
      if t != "" {
        res := Search(filters, t, p.cursorNome, limit);
      } else {
        res := Browse(filters, p.cursorId, limit);
      }
    }

    /** The search-mode answer: the page of the search query, the last name as the cursor, and
        `hasMore` when that name is non-empty and the page is full, which is whenever the page is
        full. */
    ghost predicate SearchResult(res: Listing, f: Filters, t: string, cursorNome: string, limit: nat)
      reads this
    {
      && res.SearchPage?
      && IsPage(res.items, Candidates(restaurants, SearchQuery(f, t, cursorNome, limit)), ByNomeAsc, limit)
      && res.nextCursorNome == (if res.items == [] then None else Some(res.items[|res.items| - 1].doc.nome))
      && (res.hasMore <==> res.nextCursorNome.Some? && res.nextCursorNome.value != "" && |res.items| == limit)
      && (res.hasMore <==> |res.items| == limit)
    }

    /** The default-mode answer: the page of the browse query (after the cursor document only if
        it exists), the last id as the cursor, and `hasMore` when the page is non-empty and full. */
    ghost predicate BrowseResult(res: Listing, f: Filters, cursorId: string, limit: nat)
      reads this
    {
      && res.DefaultPage?
      && IsPage(res.items, Candidates(restaurants, BrowseQuery(f, CursorItem(restaurants, cursorId), limit)),
                ByCreatedAtDesc, limit)
      && res.nextCursorId == (if res.items == [] then None else Some(res.items[|res.items| - 1].id))
      && (res.hasMore <==> res.items != [] && |res.items| == limit)
    }

    method Search(filters: Filters, t: string, cursorNome: string, limit: nat) returns (res: Listing)
      requires t != "" && limit >= 1
      ensures SearchResult(res, filters, t, cursorNome, limit) && res.q == t
    {
      var query := Query(filters, ByNomeAsc, AtNome(t), Some(t + [RangeTop]), limit);
      if cursorNome != "" {
        query := query.(start := AfterNome(cursorNome));
      }
      var items := Run(restaurants, query);
      var next: Option<string> := None;
      if items != [] {
        next := Some(items[|items| - 1].doc.nome);
        SearchNamesNonEmpty(restaurants, filters, t, cursorNome, limit, items[|items| - 1]);
      }
      res := SearchPage(t, items, next, next.Some? && next.value != "" && |items| == limit);
    }

    method Browse(filters: Filters, cursorId: string, limit: nat) returns (res: Listing)
      requires Valid()
      ensures BrowseResult(res, filters, cursorId, limit)
    {
      var query := Query(filters, ByCreatedAtDesc, FromFirst, None, limit);
      if cursorId != "" && cursorId in restaurants {
        query := query.(start := AfterItem(Item(cursorId, restaurants[cursorId])));
      }
      var items := Run(restaurants, query);
      var next: Option<Id> := None;
      if items != [] {
        next := Some(items[|items| - 1].id);
        assert items[|items| - 1].id in restaurants;
      }
      res := DefaultPage(items, next, next.Some? && next.value != "" && |items| == limit);
    }

    /** GET /getRestaurant?id=… (no authentication, any status). */
    method GetRestaurant(id: string) returns (code: int, found: Option<Item>)
      ensures id == "" ==> code == 400 && found.None?
      ensures id != "" && id !in restaurants ==> code == 404 && found.None?
      ensures id != "" && id in restaurants ==> code == 200 && found == Some(Item(id, restaurants[id]))
    {
      if id == "" {
        return 400, None;
      }
      if id !in restaurants {
        return 404, None;
      }
      return 200, Some(Item(id, restaurants[id]));
    }

    /** PATCH /updateRestaurant?id=…. The `updates` object is filled key by key and written once;
        the store refuses to update a missing document, which the handler reports as 500. */
    method UpdateRestaurant(verb: Verb, caller: Option<Id>, id: string, body: Option<RestaurantPatch>, now: nat)
      returns (code: int)
      requires Valid()
      modifies this
      ensures Valid()
      ensures verb != PATCH ==> code == 405
      ensures verb == PATCH && caller.None? ==> code == 401
      ensures verb == PATCH && caller.Some? && (id == "" || body.None?) ==> code == 400
      ensures verb == PATCH && caller.Some? && id != "" && body.Some? ==>
                match BuildUpdates(body.value)
                case Failure(_) => code == 400
                case Success(u) =>
                  if id in old(restaurants) then
                    code == 204 && restaurants == old(restaurants)[id := MergeUpdates(old(restaurants)[id], u, now)]
                  else code == 500
      ensures code != 204 ==> restaurants == old(restaurants)
      ensures users == old(users) && usersPrivate == old(usersPrivate)
    {
      if verb != PATCH {
        return 405;
      }
      if caller.None? {
        return 401;
      }
      if id == "" {
        return 400;
      }
      if body.None? {
        return 400;
      }
      var built := FillUpdates(body.value);
      if built.Failure? {
        return 400;
      }
      if id !in restaurants {
        return 500;
      }
      restaurants := restaurants[id := MergeUpdates(restaurants[id], built.value, now)];
      code := 204;
    }

    /** DELETE /deleteRestaurant?id=…: any signed-in caller, and 204 whether or not the document
        existed. */
    method DeleteRestaurant(verb: Verb, caller: Option<Id>, id: string) returns (code: int)
      requires Valid()
      modifies this
      ensures Valid()
      ensures verb != DELETE ==> code == 405
      ensures verb == DELETE && caller.None? ==> code == 401
      ensures verb == DELETE && caller.Some? && id == "" ==> code == 400
      ensures code == 204 <==> verb == DELETE && caller.Some? && id != ""
      ensures code == 204 ==> restaurants == old(restaurants) - {id}
      ensures code != 204 ==> restaurants == old(restaurants)
      ensures users == old(users) && usersPrivate == old(usersPrivate)
    {
      if verb != DELETE {
        return 405;
      }
      if caller.None? {
        return 401;
      }
      if id == "" {
        return 400;
      }
      restaurants := restaurants - {id};
      code := 204;
    }

    /** POST /createClient: the caller's own profile, with the CPF in the private collection. */
    method CreateClient(verb: Verb, caller: Option<Id>, b: ClientInput, now: nat) returns (code: int, id: Option<Id>)
      requires Valid()
      modifies this
      ensures Valid()
      ensures verb != POST ==> code == 405
      ensures verb == POST && caller.None? ==> code == 401
      ensures verb == POST && caller.Some? && CreateClientCheck(b).Some? ==> code == 400
      ensures code == 409 <==> (verb == POST && caller.Some? && CreateClientCheck(b).None?
                                && CpfConflict(old(usersPrivate), OnlyDigits(b.cpf), caller.value))
      ensures code == 201 <==> (verb == POST && caller.Some? && CreateClientCheck(b).None?
                                && !CpfConflict(old(usersPrivate), OnlyDigits(b.cpf), caller.value))
      ensures code == 201 ==>
                && id == caller
                && users == old(users)[caller.value := MergeProfile(
                     if caller.value in old(users) then old(users)[caller.value] else NoProfile, NewProfile(b, now))]
                && usersPrivate == old(usersPrivate)[caller.value := MergePrivate(
                     if caller.value in old(usersPrivate) then old(usersPrivate)[caller.value] else NoPrivate,
                     PrivateRecord(Some(OnlyDigits(b.cpf)), Some(now), Some(now)))]
      ensures code != 201 ==> id.None? && users == old(users) && usersPrivate == old(usersPrivate)
      ensures CpfsUnique(old(usersPrivate)) ==> CpfsUnique(usersPrivate)
      ensures restaurants == old(restaurants)
    {
      id := None;
      if verb != POST {
        return 405, None;
      }
      if caller.None? {
        return 401, None;
      }
      if CreateClientCheck(b).Some? {
        return 400, None;
      }
      var uid := caller.value;
      var cpf := OnlyDigits(b.cpf);
      var dup := QueryCpf(usersPrivate, cpf);
      QueryAnswersConflict(usersPrivate, cpf, uid, dup);
      if dup.Some? && dup.value != uid {
        return 409, None;
      }
      var profile := if uid in users then users[uid] else NoProfile;
      var priv := if uid in usersPrivate then usersPrivate[uid] else NoPrivate;
      var rec := MergePrivate(priv, PrivateRecord(Some(cpf), Some(now), Some(now)));
      CpfWriteKeepsUniqueIfUnique(usersPrivate, uid, cpf, rec);
      users := users[uid := MergeProfile(profile, NewProfile(b, now))];
      usersPrivate := usersPrivate[uid := rec];
      code, id := 201, Some(uid);
    }

    /** GET /getClient?id=me. Every failure, a rejected token included, is answered 500. */
    method GetClient(caller: Option<Id>, idParam: Option<string>) returns (code: int, profile: Option<ClientProfile>)
      ensures caller.None? ==> code == 500 && profile.None?
      ensures caller.Some? && ResolveId(idParam, caller.value) != caller.value ==> code == 403 && profile.None?
      ensures caller.Some? && ResolveId(idParam, caller.value) == caller.value ==>
                if caller.value in users then code == 200 && profile == Some(users[caller.value])
                else code == 404 && profile.None?
    {
      if caller.None? {
        return 500, None;
      }
      var uid := caller.value;
      var id := ResolveId(idParam, uid);
      if id != uid {
        return 403, None;
      }
      if id !in users {
        return 404, None;
      }
      return 200, Some(users[id]);
    }

    /** PATCH /updateClient?id=me. The CPF, when given, is written to the private record first;
        the profile is then merged (and created if missing). */
    method UpdateClient(verb: Verb, caller: Option<Id>, idParam: Option<string>, d: ClientPatch, now: nat)
      returns (code: int)
      requires Valid()
      modifies this
      ensures Valid()
      ensures verb != PATCH ==> code == 405
      ensures verb == PATCH && caller.None? ==> code == 401
      ensures verb == PATCH && caller.Some? && ResolveId(idParam, caller.value) != caller.value ==> code == 403
      ensures verb == PATCH && caller.Some? && ResolveId(idParam, caller.value) == caller.value ==>
                if UpdateClientCheck(d).Some? then code == 400
                else if d.cpf.Some? && CpfConflict(old(usersPrivate), OnlyDigits(d.cpf.value), caller.value)
                then code == 409
                else code == 204
      ensures code == 204 ==>
                && users == old(users)[caller.value := MergeProfile(
                     if caller.value in old(users) then old(users)[caller.value] else NoProfile, ProfileUpdates(d, now))]
                && usersPrivate == (if d.cpf.None? then old(usersPrivate)
                                    else old(usersPrivate)[caller.value := MergePrivate(
                                      if caller.value in old(usersPrivate) then old(usersPrivate)[caller.value] else NoPrivate,
                                      PrivateRecord(Some(OnlyDigits(d.cpf.value)), None, Some(now)))])
      ensures code != 204 ==> users == old(users) && usersPrivate == old(usersPrivate)
      ensures CpfsUnique(old(usersPrivate)) ==> CpfsUnique(usersPrivate)
      ensures restaurants == old(restaurants)
    {
      if verb != PATCH {
        return 405;
      }
      if caller.None? {
        return 401;
      }
      var uid := caller.value;
      var id := ResolveId(idParam, uid);
      if id != uid {
        return 403;
      }
      if UpdateClientCheck(d).Some? {
        return 400;
      }
      if d.cpf.Some? {
        var cpf := OnlyDigits(d.cpf.value);
        var dup := QueryCpf(usersPrivate, cpf);
        QueryAnswersConflict(usersPrivate, cpf, id, dup);
        if dup.Some? && dup.value != id {
          return 409;
        }
        var priv := if id in usersPrivate then usersPrivate[id] else NoPrivate;
        var rec := MergePrivate(priv, PrivateRecord(Some(cpf), None, Some(now)));
        CpfWriteKeepsUniqueIfUnique(usersPrivate, id, cpf, rec);
        usersPrivate := usersPrivate[id := rec];
      }
      var profile := if id in users then users[id] else NoProfile;
      users := users[id := MergeProfile(profile, ProfileUpdates(d, now))];
      code := 204;
    }

    /** DELETE /deleteClient?id=me: removes both of the caller's documents. */
    method DeleteClient(verb: Verb, caller: Option<Id>, idParam: Option<string>) returns (code: int)
      requires Valid()
      modifies this
      ensures Valid()
      ensures verb != DELETE ==> code == 405
      ensures verb == DELETE && caller.None? ==> code == 401
      ensures verb == DELETE && caller.Some? && ResolveId(idParam, caller.value) != caller.value ==> code == 403
      ensures code == 204 <==> verb == DELETE && caller.Some? && ResolveId(idParam, caller.value) == caller.value
      ensures code == 204 ==> users == old(users) - {caller.value} && usersPrivate == old(usersPrivate) - {caller.value}
      ensures code != 204 ==> users == old(users) && usersPrivate == old(usersPrivate)
      ensures CpfsUnique(old(usersPrivate)) ==> CpfsUnique(usersPrivate)
      ensures restaurants == old(restaurants)
    {
      if verb != DELETE {
        return 405;
      }
      if caller.None? {
        return 401;
      }
      var uid := caller.value;
      var id := ResolveId(idParam, uid);
      if id != uid {
        return 403;
      }
      users := users - {id};
      usersPrivate := usersPrivate - {id};
      code := 204;
    }
  }
}
