/**
 * The sign-up wizard's shared state (hooks/useRegistration.tsx): five slices of form data,
 * their initial values, and the patch semantics of the context setters. Every setter is an
 * updater `prev => ({...prev, ...patch})`; the two "basics" setters also merge the nested
 * `endereco` key by key. A `Partial<T>` patch is a record of options: `None` is a key the
 * patch does not carry.
 */
module Registration {
  import opened Wrappers
  import Documents

  datatype UserType = NoUserType | ClientUser | RestaurantUser

  // ---------------------------------------------------------------------------
  // Address and its two-level merge
  // ---------------------------------------------------------------------------

  datatype Address = Address(cep: string, logradouro: string, numero: string,
                             bairro: string, municipio: string, uf: string)

  datatype AddressPatch = AddressPatch(cep: Option<string>, logradouro: Option<string>, numero: Option<string>,
                                       bairro: Option<string>, municipio: Option<string>, uf: Option<string>)

  const InitialAddress := Address("", "", "", "", "", "")
  const NoAddressPatch := AddressPatch(None, None, None, None, None, None)

  /** `{...prev, ...patch}` on an address. */
  function PatchAddress(a: Address, p: AddressPatch): Address {
    Address(p.cep.GetOr(a.cep), p.logradouro.GetOr(a.logradouro), p.numero.GetOr(a.numero),
            p.bairro.GetOr(a.bairro), p.municipio.GetOr(a.municipio), p.uf.GetOr(a.uf))
  }

  /** Applying `p` and then `q` is applying `q` over `p`: the later patch wins per key. */
  function ThenAddress(p: AddressPatch, q: AddressPatch): AddressPatch {
    AddressPatch(Documents.Over(p.cep, q.cep), Documents.Over(p.logradouro, q.logradouro),
                 Documents.Over(p.numero, q.numero), Documents.Over(p.bairro, q.bairro),
                 Documents.Over(p.municipio, q.municipio), Documents.Over(p.uf, q.uf))
  }

  /** Address keys the patch carries take its values; every other key keeps its old value. */
  lemma PatchAddressKeys(a: Address, p: AddressPatch)
    ensures var r := PatchAddress(a, p);
      && (p.cep.Some? ==> r.cep == p.cep.value) && (p.cep.None? ==> r.cep == a.cep)
      && (p.logradouro.Some? ==> r.logradouro == p.logradouro.value) && (p.logradouro.None? ==> r.logradouro == a.logradouro)
      && (p.numero.Some? ==> r.numero == p.numero.value) && (p.numero.None? ==> r.numero == a.numero)
      && (p.bairro.Some? ==> r.bairro == p.bairro.value) && (p.bairro.None? ==> r.bairro == a.bairro)
      && (p.municipio.Some? ==> r.municipio == p.municipio.value) && (p.municipio.None? ==> r.municipio == a.municipio)
      && (p.uf.Some? ==> r.uf == p.uf.value) && (p.uf.None? ==> r.uf == a.uf)
  {
  }

  lemma PatchAddressCompose(a: Address, p: AddressPatch, q: AddressPatch)
    ensures PatchAddress(PatchAddress(a, p), q) == PatchAddress(a, ThenAddress(p, q))
  {
  }

  // ---------------------------------------------------------------------------
  // Client slices
  // ---------------------------------------------------------------------------

  datatype ClientBasics = ClientBasics(nome: string, cpf: string, telefone: string, endereco: Address)

  datatype ClientBasicsPatch = ClientBasicsPatch(nome: Option<string>, cpf: Option<string>, telefone: Option<string>,
                                                 endereco: Option<AddressPatch>)

  datatype ClientPrefs = ClientPrefs(preferencias: seq<string>, alergiasObs: string)

  datatype ClientPrefsPatch = ClientPrefsPatch(preferencias: Option<seq<string>>, alergiasObs: Option<string>)

  const InitialBasics := ClientBasics("", "", "", InitialAddress)
  const InitialPrefs := ClientPrefs([], "")

  /** `setClientBasics`: a shallow merge, except that `endereco` is merged key by key
      (`patch.endereco ?? {}` spread over the old address). */
  function SetClientBasics(prev: ClientBasics, patch: ClientBasicsPatch): ClientBasics {
    ClientBasics(patch.nome.GetOr(prev.nome), patch.cpf.GetOr(prev.cpf), patch.telefone.GetOr(prev.telefone),
                 PatchAddress(prev.endereco, patch.endereco.GetOr(NoAddressPatch)))
  }

  function ThenClientBasics(p: ClientBasicsPatch, q: ClientBasicsPatch): ClientBasicsPatch {
    ClientBasicsPatch(Documents.Over(p.nome, q.nome), Documents.Over(p.cpf, q.cpf), Documents.Over(p.telefone, q.telefone),
                      if p.endereco.None? then q.endereco
                      else if q.endereco.None? then p.endereco
                      else Some(ThenAddress(p.endereco.value, q.endereco.value)))
  }

  /** `setClientPrefs`: a shallow merge. */
  function SetClientPrefs(prev: ClientPrefs, patch: ClientPrefsPatch): ClientPrefs {
    ClientPrefs(patch.preferencias.GetOr(prev.preferencias), patch.alergiasObs.GetOr(prev.alergiasObs))
  }

  /** Top-level keys the patch carries are overwritten and the others kept; inside the
      address, keys the patch's `endereco` omits keep their old values, and a patch without
      `endereco` leaves the whole address as it was. */
  lemma ClientBasicsMerge(prev: ClientBasics, patch: ClientBasicsPatch)
    ensures var r := SetClientBasics(prev, patch);
      && (patch.nome.Some? ==> r.nome == patch.nome.value) && (patch.nome.None? ==> r.nome == prev.nome)
      && (patch.cpf.Some? ==> r.cpf == patch.cpf.value) && (patch.cpf.None? ==> r.cpf == prev.cpf)
      && (patch.telefone.Some? ==> r.telefone == patch.telefone.value) && (patch.telefone.None? ==> r.telefone == prev.telefone)
      && (patch.endereco.None? ==> r.endereco == prev.endereco)
      && (patch.endereco.Some? ==> r.endereco == PatchAddress(prev.endereco, patch.endereco.value))
  {
    var e := PatchAddress(prev.endereco, NoAddressPatch);
    assert e == prev.endereco;
  }

  /** Two patches in a row are one composed patch. */
  lemma {:induction false} ClientBasicsCompose(prev: ClientBasics, p: ClientBasicsPatch, q: ClientBasicsPatch)
    ensures SetClientBasics(SetClientBasics(prev, p), q) == SetClientBasics(prev, ThenClientBasics(p, q))
  {
    var a := prev.endereco;
    var pa := p.endereco.GetOr(NoAddressPatch);
    var qa := q.endereco.GetOr(NoAddressPatch);
    PatchAddressCompose(a, pa, qa);
    assert ThenAddress(pa, qa) == ThenClientBasics(p, q).endereco.GetOr(NoAddressPatch);
  }

  /** The empty patch changes nothing, and repeating a patch changes nothing more. */
  lemma ClientSettersIdentityAndIdempotence(b: ClientBasics, bp: ClientBasicsPatch, c: ClientPrefs, cp: ClientPrefsPatch)
    ensures SetClientBasics(b, ClientBasicsPatch(None, None, None, None)) == b
    ensures SetClientBasics(SetClientBasics(b, bp), bp) == SetClientBasics(b, bp)
    ensures SetClientPrefs(c, ClientPrefsPatch(None, None)) == c
    ensures SetClientPrefs(SetClientPrefs(c, cp), cp) == SetClientPrefs(c, cp)
  {
    ClientBasicsCompose(b, bp, bp);
    if bp.endereco.Some? {
      assert ThenAddress(bp.endereco.value, bp.endereco.value) == bp.endereco.value;
    }
    assert ThenClientBasics(bp, bp) == bp;
  }

  // ---------------------------------------------------------------------------
  // Restaurant slices
  // ---------------------------------------------------------------------------

  datatype RestaurantBasics = RestaurantBasics(nome: string, cnpj: string, telefone: string, endereco: Address)

  datatype RestaurantBasicsPatch = RestaurantBasicsPatch(nome: Option<string>, cnpj: Option<string>,
                                                         telefone: Option<string>, endereco: Option<AddressPatch>)

  datatype RestaurantDetails = RestaurantDetails(logoUri: Option<string>, descricao: string, instagram: string,
                                                 facebook: string, whatsapp: string, cuisines: seq<string>)

  /** `logoUri` is nullable, so a patch may carry `Some(None)`: set it to null. */
  datatype RestaurantDetailsPatch = RestaurantDetailsPatch(logoUri: Option<Option<string>>, descricao: Option<string>,
                                                           instagram: Option<string>, facebook: Option<string>,
                                                           whatsapp: Option<string>, cuisines: Option<seq<string>>)

  datatype Hours = Hours(abertura: string, fechamento: string)

  datatype RestaurantOperational = RestaurantOperational(
    reserva: bool, fila: bool, filas: seq<Documents.Queue>,
    diasFuncionamento: map<string, bool>, horarios: map<string, Hours>,
    cardapioUri: Option<string>, cardapioNome: string, precoMinimo: int, precoMaximo: int)

  datatype RestaurantOperationalPatch = RestaurantOperationalPatch(
    reserva: Option<bool>, fila: Option<bool>, filas: Option<seq<Documents.Queue>>,
    diasFuncionamento: Option<map<string, bool>>, horarios: Option<map<string, Hours>>,
    cardapioUri: Option<Option<string>>, cardapioNome: Option<string>, precoMinimo: Option<int>, precoMaximo: Option<int>)

  const NoOperationalPatch := RestaurantOperationalPatch(None, None, None, None, None, None, None, None, None)

  /** The week's keys, Sunday first. */
  const Days: seq<string> := ["dom", "seg", "ter", "qua", "qui", "sex", "sab"]

  const InitialRestaurantBasics := RestaurantBasics("", "", "", InitialAddress)
  const InitialRestaurantDetails := RestaurantDetails(None, "", "", "", "", [])

  /** Every day closed, every day's hours 08:00 to 22:00, no queues, prices 0/0. */
  const InitialRestaurantOperational := RestaurantOperational(
    false, false, [],
    map d | d in Days :: false,
    map d | d in Days :: Hours("08:00", "22:00"),
    None, "", 0, 0)

  /** `setRestaurantBasics`: the same two-level merge as `setClientBasics`. */
  function SetRestaurantBasics(prev: RestaurantBasics, patch: RestaurantBasicsPatch): RestaurantBasics {
    RestaurantBasics(patch.nome.GetOr(prev.nome), patch.cnpj.GetOr(prev.cnpj), patch.telefone.GetOr(prev.telefone),
                     PatchAddress(prev.endereco, patch.endereco.GetOr(NoAddressPatch)))
  }

  /** `setRestaurantDetails`: a shallow merge. */
  function SetRestaurantDetails(prev: RestaurantDetails, patch: RestaurantDetailsPatch): RestaurantDetails {
    RestaurantDetails(patch.logoUri.GetOr(prev.logoUri), patch.descricao.GetOr(prev.descricao),
                      patch.instagram.GetOr(prev.instagram), patch.facebook.GetOr(prev.facebook),
                      patch.whatsapp.GetOr(prev.whatsapp), patch.cuisines.GetOr(prev.cuisines))
  }

  /** `setRestaurantOperational`: a shallow merge; a patched map or list replaces the old one whole. */
  function SetRestaurantOperational(prev: RestaurantOperational, patch: RestaurantOperationalPatch): RestaurantOperational {
    RestaurantOperational(
      patch.reserva.GetOr(prev.reserva), patch.fila.GetOr(prev.fila), patch.filas.GetOr(prev.filas),
      patch.diasFuncionamento.GetOr(prev.diasFuncionamento), patch.horarios.GetOr(prev.horarios),
      patch.cardapioUri.GetOr(prev.cardapioUri), patch.cardapioNome.GetOr(prev.cardapioNome),
      patch.precoMinimo.GetOr(prev.precoMinimo), patch.precoMaximo.GetOr(prev.precoMaximo))
  }

  /** The restaurant basics viewed as client basics, `cnpj` in the place of `cpf`. */
  function AsClientBasics(b: RestaurantBasics): ClientBasics {
    ClientBasics(b.nome, b.cnpj, b.telefone, b.endereco)
  }

  function AsClientPatch(p: RestaurantBasicsPatch): ClientBasicsPatch {
    ClientBasicsPatch(p.nome, p.cnpj, p.telefone, p.endereco)
  }

  /** Both basics setters merge alike: renaming `cnpj` to `cpf` commutes with the merge. */
  lemma BasicsSettersAgree(b: RestaurantBasics, p: RestaurantBasicsPatch)
    ensures AsClientBasics(SetRestaurantBasics(b, p)) == SetClientBasics(AsClientBasics(b), AsClientPatch(p))
    ensures SetRestaurantBasics(b, p).cnpj == p.cnpj.GetOr(b.cnpj)
  {
  }

  /** The shallow setters replace nested values whole: the new day map and hours map are the
      patch's, whatever the old ones held, so days the patch omits are dropped. Contrast
      `ClientBasicsMerge`, where address keys the patch omits survive. */
  lemma OperationalReplacesNested(prev: RestaurantOperational, dias: map<string, bool>, horarios: map<string, Hours>)
    ensures var r := SetRestaurantOperational(prev, NoOperationalPatch.(diasFuncionamento := Some(dias), horarios := Some(horarios)));
      && r.diasFuncionamento == dias && r.horarios == horarios
      && r.filas == prev.filas && r.reserva == prev.reserva && r.fila == prev.fila
      && r.cardapioUri == prev.cardapioUri && r.cardapioNome == prev.cardapioNome
      && r.precoMinimo == prev.precoMinimo && r.precoMaximo == prev.precoMaximo
    ensures "seg" in prev.horarios && "seg" !in horarios ==>
      "seg" !in SetRestaurantOperational(prev, NoOperationalPatch.(horarios := Some(horarios))).horarios
  {
  }

  /** For every restaurant setter the empty patch is the identity and repeating a patch
      changes nothing more. */
  lemma RestaurantSettersIdentityAndIdempotence(
    b: RestaurantBasics, bp: RestaurantBasicsPatch,
    d: RestaurantDetails, dp: RestaurantDetailsPatch,
    o: RestaurantOperational, op: RestaurantOperationalPatch)
    ensures SetRestaurantBasics(b, RestaurantBasicsPatch(None, None, None, None)) == b
    ensures SetRestaurantBasics(SetRestaurantBasics(b, bp), bp) == SetRestaurantBasics(b, bp)
    ensures SetRestaurantDetails(d, RestaurantDetailsPatch(None, None, None, None, None, None)) == d
    ensures SetRestaurantDetails(SetRestaurantDetails(d, dp), dp) == SetRestaurantDetails(d, dp)
    ensures SetRestaurantOperational(o, NoOperationalPatch) == o
    ensures SetRestaurantOperational(SetRestaurantOperational(o, op), op) == SetRestaurantOperational(o, op)
  {
    BasicsSettersAgree(b, RestaurantBasicsPatch(None, None, None, None));
    ClientSettersIdentityAndIdempotence(AsClientBasics(b), AsClientPatch(bp), InitialPrefs, ClientPrefsPatch(None, None));
    BasicsSettersAgree(b, bp);
    BasicsSettersAgree(SetRestaurantBasics(b, bp), bp);
  }

  // ---------------------------------------------------------------------------
  // The whole context
  // ---------------------------------------------------------------------------

  datatype State = State(userType: UserType, clientBasics: ClientBasics, clientPrefs: ClientPrefs,
                         restaurantBasics: RestaurantBasics, restaurantDetails: RestaurantDetails,
                         restaurantOperational: RestaurantOperational)

  const InitialState := State(NoUserType, InitialBasics, InitialPrefs, InitialRestaurantBasics,
                              InitialRestaurantDetails, InitialRestaurantOperational)

  /** One call on the context. */
  datatype Action =
    | SetUserType(t: UserType)
    | EditClientBasics(cb: ClientBasicsPatch)
    | EditClientPrefs(cp: ClientPrefsPatch)
    | EditRestaurantBasics(rb: RestaurantBasicsPatch)
    | EditRestaurantDetails(rd: RestaurantDetailsPatch)
    | EditRestaurantOperational(ro: RestaurantOperationalPatch)
    | Reset

  /** Each setter updates its own state hook; `reset` sets every hook back to its initial value. */
  function Apply(s: State, a: Action): State {
    match a
    case SetUserType(t) => s.(userType := t)
    case EditClientBasics(p) => s.(clientBasics := SetClientBasics(s.clientBasics, p))
    case EditClientPrefs(p) => s.(clientPrefs := SetClientPrefs(s.clientPrefs, p))
    case EditRestaurantBasics(p) => s.(restaurantBasics := SetRestaurantBasics(s.restaurantBasics, p))
    case EditRestaurantDetails(p) => s.(restaurantDetails := SetRestaurantDetails(s.restaurantDetails, p))
    case EditRestaurantOperational(p) => s.(restaurantOperational := SetRestaurantOperational(s.restaurantOperational, p))
    case Reset => InitialState
  }

  function ApplyAll(s: State, actions: seq<Action>): State
    decreases |actions|
  {
    if actions == [] then s else ApplyAll(Apply(s, actions[0]), actions[1..])
  }

  /** The slice an action writes; `Reset` writes all of them. */
  function Slice(a: Action): nat {
    match a
    case SetUserType(_) => 0
    case EditClientBasics(_) => 1
    case EditClientPrefs(_) => 2
    case EditRestaurantBasics(_) => 3
    case EditRestaurantDetails(_) => 4
    case EditRestaurantOperational(_) => 5
    case Reset => 6
  }

  /** Setters on different slices commute: each touches only its own state hook. */
  lemma SettersOnDifferentSlicesCommute(s: State, a: Action, b: Action)
    requires !a.Reset? && !b.Reset? && Slice(a) != Slice(b)
    ensures Apply(Apply(s, a), b) == Apply(Apply(s, b), a)
  {
  }

  /** After `reset`, whatever came before is forgotten: the state is the initial one. */
  lemma {:induction false} ResetForgetsHistory(s: State, before: seq<Action>, after: seq<Action>)
    ensures ApplyAll(s, before + [Reset] + after) == ApplyAll(InitialState, after)
    decreases |before|
  {
    if before == [] {
      assert before + [Reset] + after == [Reset] + after;
      assert ([Reset] + after)[1..] == after;
    } else {
      assert (before + [Reset] + after)[1..] == before[1..] + [Reset] + after;
      ResetForgetsHistory(Apply(s, before[0]), before[1..], after);
    }
  }

  /** The initial operational slice: all seven days closed, every day open 08:00 to 22:00,
      no queues, prices 0/0, no menu. */
  lemma InitialOperationalShape()
    ensures var o := InitialRestaurantOperational;
      && o.diasFuncionamento.Keys == set d | d in Days
      && (forall d :: d in o.diasFuncionamento ==> !o.diasFuncionamento[d])
      && o.horarios.Keys == o.diasFuncionamento.Keys
      && (forall d :: d in o.horarios ==> o.horarios[d] == Hours("08:00", "22:00"))
      && o.filas == [] && !o.reserva && !o.fila
      && o.precoMinimo == 0 && o.precoMaximo == 0 && o.cardapioUri.None?
    ensures |set d | d in Days| == 7
  {
    var days := set d | d in Days;
    assert days == {"dom", "seg", "ter", "qua", "qui", "sex", "sab"};
  }
}
