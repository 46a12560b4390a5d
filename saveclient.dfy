/**
 * The client side of client sign-up (services/saveClient.ts): normalising the wizard's
 * payload, the validation chain, and the two documents written in one batch to
 * `users/{uid}` and `users_private/{uid}`. The batch write itself is not modelled; the
 * documents it would write are the result.
 */
module ClientService {
  import opened Wrappers
  import opened Text

  /** The values a document field can hold. `Undefined` is a key set to `undefined`;
      `Timestamp` is the store's server-time sentinel. An object is its entries in key
      insertion order, the order `Object.keys` lists them in. */
  datatype JsValue =
    | Undefined | Null | Boolean(b: bool) | Number(n: int) | JsString(s: string)
    | List(elems: seq<JsValue>) | Object(fields: seq<Entry>) | Timestamp

  datatype Entry = Entry(key: string, value: JsValue)

  // ---------------------------------------------------------------------------
  // compactObject
  // ---------------------------------------------------------------------------

  /** The values `compactObject` drops: the empty string and `undefined`. */
  predicate Dropped(v: JsValue) { v == JsString("") || v == Undefined }

  /** An object without its empty-string and undefined entries, the others in their order. */
  function Compacted(obj: seq<Entry>): (r: seq<Entry>)
    ensures |r| <= |obj|
    ensures forall e :: e in r <==> e in obj && !Dropped(e.value)
  {
    if obj == [] then []
    else
      var last := obj[|obj| - 1];
      Compacted(obj[..|obj| - 1]) + (if Dropped(last.value) then [] else [last])
  }

  /** `compactObject`: walks the keys in order and copies every entry but the dropped ones. */
  method CompactObject(obj: seq<Entry>) returns (out: seq<Entry>)
    ensures out == Compacted(obj)
  {
    out := [];
    for i := 0 to |obj|
      invariant out == Compacted(obj[..i])
    {
      assert obj[..i + 1][..i] == obj[..i];
      var e := obj[i];
      if !Dropped(e.value) {
        out := out + [e];
      }
    }
    assert obj[..|obj|] == obj;
  }

  /** Compaction works entry by entry: it distributes over concatenation. */
  lemma {:induction false} CompactedAppend(a: seq<Entry>, b: seq<Entry>)
    ensures Compacted(a + b) == Compacted(a) + Compacted(b)
  {
    if b != [] {
      assert (a + b)[..|a + b| - 1] == a + b[..|b| - 1];
      CompactedAppend(a, b[..|b| - 1]);
    } else {
      assert a + b == a;
    }
  }

  /** An object without dropped values is kept whole; so compacting twice is compacting once. */
  lemma {:induction false} CompactedOfKept(obj: seq<Entry>)
    requires forall i :: 0 <= i < |obj| ==> !Dropped(obj[i].value)
    ensures Compacted(obj) == obj
  {
    if obj != [] {
      var init := obj[..|obj| - 1];
      CompactedOfKept(init);
      assert !Dropped(obj[|obj| - 1].value);
      assert init + [obj[|obj| - 1]] == obj;
    }
  }

  lemma CompactedIdempotent(obj: seq<Entry>)
    ensures Compacted(Compacted(obj)) == Compacted(obj)
  {
    var r := Compacted(obj);
    forall i | 0 <= i < |r| ensures !Dropped(r[i].value) {
      assert r[i] in r;
    }
    CompactedOfKept(r);
  }

  /** Only "" and `undefined` go: `null`, `false`, `0` and an empty list are kept, whatever
      the keys are. */
  lemma CompactedKeepsFalsyValues(ka: string, kb: string, kc: string, kd: string, ke: string, kf: string)
    ensures Compacted([Entry(ka, Null), Entry(kb, Boolean(false)), Entry(kc, Number(0)), Entry(kd, List([]))])
            == [Entry(ka, Null), Entry(kb, Boolean(false)), Entry(kc, Number(0)), Entry(kd, List([]))]
    ensures Compacted([Entry(ke, JsString("")), Entry(kf, Undefined)]) == []
  {
    CompactedOfKept([Entry(ka, Null), Entry(kb, Boolean(false)), Entry(kc, Number(0)), Entry(kd, List([]))]);
  }

  // ---------------------------------------------------------------------------
  // Field normalisation
  // ---------------------------------------------------------------------------

  /** A payload field: a string, a number (`numero` may be one), or null/undefined. */
  datatype Scalar = Nullish | Chars(s: string) | Num(n: int)

  /** Decimal text of an integer, as `String(n)` renders it. */
  function IntText(n: int): string {
    if n < 0 then "-" + Decimal(-n) else Decimal(n)
  }

  /** `String(v ?? "")`. */
  function Raw(v: Scalar): string {
    match v
    case Nullish => ""
    case Chars(s) => s
    case Num(n) => IntText(n)
  }

  /** `str`: null and undefined become "", anything else its trimmed text. */
  function Str(v: Scalar): (r: string)
    ensures v.Nullish? ==> r == ""
  {
    Trim(Raw(v))
  }

  /** `onlyDigits` of a field. */
  function Digits(v: Scalar): (r: string)
    ensures AllDigits(r)
  {
    OnlyDigits(Raw(v))
  }

  /** `str` leaves no surrounding whitespace, so applying it to its own result changes nothing. */
  lemma StrIdempotent(v: Scalar)
    ensures Str(Chars(Str(v))) == Str(v)
    ensures Str(v) != "" ==> !IsSpace(Str(v)[0]) && !IsSpace(Str(v)[|Str(v)| - 1])
  {
    TrimIdempotent(Raw(v));
    TrimSlice(Raw(v));
  }

  /** `filter(Boolean)` on a list of strings: the non-empty ones, in order. */
  function KeepTruthy(xs: seq<string>): (r: seq<string>)
    ensures |r| <= |xs|
    ensures forall x :: x in r <==> x in xs && x != ""
  {
    if xs == [] then [] else (if xs[0] != "" then [xs[0]] else []) + KeepTruthy(xs[1..])
  }

  /** Filtering works element by element: it distributes over concatenation. */
  lemma {:induction false} KeepTruthyAppend(xs: seq<string>, ys: seq<string>)
    ensures KeepTruthy(xs + ys) == KeepTruthy(xs) + KeepTruthy(ys)
  {
    if xs == [] {
      assert xs + ys == ys;
    } else {
      assert (xs + ys)[1..] == xs[1..] + ys;
      KeepTruthyAppend(xs[1..], ys);
    }
  }

  /** A list without empty strings is kept whole; so filtering twice is filtering once. */
  lemma {:induction false} KeepTruthyOfTruthy(xs: seq<string>)
    requires forall i :: 0 <= i < |xs| ==> xs[i] != ""
    ensures KeepTruthy(xs) == xs
  {
    if xs != [] {
      KeepTruthyOfTruthy(xs[1..]);
    }
  }

  lemma KeepTruthyIdempotent(xs: seq<string>)
    ensures KeepTruthy(KeepTruthy(xs)) == KeepTruthy(xs)
  {
    var r := KeepTruthy(xs);
    forall i | 0 <= i < |r| ensures r[i] != "" {
      assert r[i] in r;
    }
    KeepTruthyOfTruthy(r);
  }

  // ---------------------------------------------------------------------------
  // saveClient
  // ---------------------------------------------------------------------------

  /** The wizard's client payload. `prefs` is `None` when it is not an array. */
  datatype ClientePayload = ClientePayload(
    nome: Scalar, telefone: Scalar, cpf: Scalar, cep: Scalar, endereco: Scalar, bairro: Scalar,
    numero: Scalar, uf: Scalar, municipio: Scalar, prefs: Option<seq<string>>, alergias: Scalar)

  datatype SaveError = NotSignedIn | NomeRequired | CpfInvalid | CepInvalid | UfMunicipioRequired

  /** The checks `saveClient` runs before it builds anything, in order. */
  function SaveClientCheck(uid: Option<string>, p: ClientePayload): (e: Option<SaveError>)
  {
    if uid.None? || uid.value == "" then Some(NotSignedIn)
    else if Str(p.nome) == "" then Some(NomeRequired)
    else if |Digits(p.cpf)| != 11 then Some(CpfInvalid)
    else if |Digits(p.cep)| != 8 then Some(CepInvalid)
    else if Str(p.uf) == "" || Str(p.municipio) == "" then Some(UfMunicipioRequired)
    else None
  }

  /** The address object before compaction. */
  function AddressFields(p: ClientePayload): seq<Entry> {
    [Entry("cep", JsString(Digits(p.cep))), Entry("logradouro", JsString(Str(p.endereco))),
     Entry("bairro", JsString(Str(p.bairro))), Entry("numero", JsString(Str(p.numero))),
     Entry("municipio", JsString(Str(p.municipio))), Entry("uf", JsString(Str(p.uf)))]
  }

  function PrefsValue(p: ClientePayload): JsValue {
    var kept := KeepTruthy(p.prefs.GetOr([]));
    List(seq(|kept|, i requires 0 <= i < |kept| => JsString(kept[i])))
  }

  /** `str(alergias) || null`. */
  function AllergiesValue(p: ClientePayload): (r: JsValue)
    ensures r == Null <==> forall k :: 0 <= k < |Raw(p.alergias)| ==> IsSpace(Raw(p.alergias)[k])
    ensures r != Null ==> r.JsString? && r.s != "" && !IsSpace(r.s[0]) && !IsSpace(r.s[|r.s| - 1])
    ensures r != Null ==> r == JsString(Str(p.alergias)) && !Dropped(r)
  {
    TrimEmptyIff(Raw(p.alergias));
    TrimSlice(Raw(p.alergias));
    if Str(p.alergias) == "" then Null else JsString(Str(p.alergias))
  }

  /** The public document before compaction, given the compacted address. */
  function PublicFields(p: ClientePayload, endereco: seq<Entry>): seq<Entry> {
    PublicFieldsOf(Str(p.nome), Lower(Str(p.nome)), Digits(p.telefone), endereco, PrefsValue(p), AllergiesValue(p))
  }

  function PrivateFields(p: ClientePayload): seq<Entry> {
    [Entry("cpf", JsString(Digits(p.cpf))), Entry("createdAt", Timestamp), Entry("updatedAt", Timestamp)]
  }

  /** The document for `users/{uid}`. */
  function PublicDoc(p: ClientePayload): seq<Entry> {
    Compacted(PublicFields(p, Compacted(AddressFields(p))))
  }

  /** The document for `users_private/{uid}`. */
  function PrivateDoc(p: ClientePayload): seq<Entry> {
    Compacted(PrivateFields(p))
  }

  datatype ClientDocs = ClientDocs(publicDoc: seq<Entry>, privateDoc: seq<Entry>)

  /** `saveClient` up to the batch write: the first failing check, or the two documents. */
  method SaveClient(uid: Option<string>, p: ClientePayload) returns (r: Result<ClientDocs, SaveError>)
    ensures SaveClientCheck(uid, p).Some? ==> r == Failure(SaveClientCheck(uid, p).value)
    ensures SaveClientCheck(uid, p).None? ==> r == Success(ClientDocs(PublicDoc(p), PrivateDoc(p)))
  {
    if uid.None? || uid.value == "" {
      return Failure(NotSignedIn);
    }
    var nome := Str(p.nome);
    var tel := Digits(p.telefone);
    var cpf := Digits(p.cpf);
    var cep := Digits(p.cep);
    var numero := Str(p.numero);
    if nome == "" {
      return Failure(NomeRequired);
    }
    if |cpf| != 11 {
      return Failure(CpfInvalid);
    }
    if |cep| != 8 {
      return Failure(CepInvalid);
    }
    if Str(p.uf) == "" || Str(p.municipio) == "" {
      return Failure(UfMunicipioRequired);
    }
    var endereco := CompactObject([Entry("cep", JsString(cep)), Entry("logradouro", JsString(Str(p.endereco))),
                                   Entry("bairro", JsString(Str(p.bairro))), Entry("numero", JsString(numero)),
                                   Entry("municipio", JsString(Str(p.municipio))), Entry("uf", JsString(Str(p.uf)))]);
    var publicDoc := CompactObject(PublicFields(p, endereco));
    var privateDoc := CompactObject([Entry("cpf", JsString(cpf)), Entry("createdAt", Timestamp),
                                     Entry("updatedAt", Timestamp)]);
    r := Success(ClientDocs(publicDoc, privateDoc));
  }

  /** The private document holds the 11-digit CPF and the two timestamps, nothing else. */
  lemma PrivateDocShape(uid: Option<string>, p: ClientePayload)
    requires SaveClientCheck(uid, p).None?
    ensures PrivateDoc(p) == [Entry("cpf", JsString(Digits(p.cpf))), Entry("createdAt", Timestamp),
                              Entry("updatedAt", Timestamp)]
    ensures |Digits(p.cpf)| == 11
  {
    assert Digits(p.cpf) != "";
    CompactedOfKept(PrivateFields(p));
  }

  /** An entry of a literal object is in its compaction exactly when its value is not "". */
  lemma KeptUnlessEmpty(obj: seq<Entry>, i: nat, k: string, v: string)
    requires i < |obj| && obj[i] == Entry(k, JsString(v))
    ensures Entry(k, JsString(v)) in Compacted(obj) <==> v != ""
  {
    if v != "" {
      assert obj[i] in obj;
    } else {
      assert Dropped(obj[i].value);
    }
  }

  /** An entry that is neither blank nor undefined survives compaction. */
  lemma KeptAt(obj: seq<Entry>, i: nat)
    requires i < |obj| && !Dropped(obj[i].value)
    ensures obj[i] in Compacted(obj)
  {
    assert obj[i] in obj;
  }

  /** Each address key survives compaction exactly when its text is not blank. */
  lemma AddressEntries(cep: string, logradouro: string, bairro: string, numero: string, municipio: string, uf: string)
    ensures var e := Compacted([Entry("cep", JsString(cep)), Entry("logradouro", JsString(logradouro)),
                                Entry("bairro", JsString(bairro)), Entry("numero", JsString(numero)),
                                Entry("municipio", JsString(municipio)), Entry("uf", JsString(uf))]);
      && (Entry("cep", JsString(cep)) in e <==> cep != "")
      && (Entry("logradouro", JsString(logradouro)) in e <==> logradouro != "")
      && (Entry("bairro", JsString(bairro)) in e <==> bairro != "")
      && (Entry("numero", JsString(numero)) in e <==> numero != "")
      && (Entry("municipio", JsString(municipio)) in e <==> municipio != "")
      && (Entry("uf", JsString(uf)) in e <==> uf != "")
  {
    var f := [Entry("cep", JsString(cep)), Entry("logradouro", JsString(logradouro)),
              Entry("bairro", JsString(bairro)), Entry("numero", JsString(numero)),
              Entry("municipio", JsString(municipio)), Entry("uf", JsString(uf))];
    KeptUnlessEmpty(f, 0, "cep", cep);
    KeptUnlessEmpty(f, 1, "logradouro", logradouro);
    KeptUnlessEmpty(f, 2, "bairro", bairro);
    KeptUnlessEmpty(f, 3, "numero", numero);
    KeptUnlessEmpty(f, 4, "municipio", municipio);
    KeptUnlessEmpty(f, 5, "uf", uf);
  }

  /** After the checks pass, the address always carries the 8-digit CEP, the UF and the
      municipality. */
  lemma AddressShape(uid: Option<string>, p: ClientePayload)
    requires SaveClientCheck(uid, p).None?
    ensures var e := Compacted(AddressFields(p));
      && Entry("cep", JsString(Digits(p.cep))) in e && |Digits(p.cep)| == 8
      && Entry("uf", JsString(Str(p.uf))) in e && Entry("municipio", JsString(Str(p.municipio))) in e
  {
    AddressEntries(Digits(p.cep), Str(p.endereco), Str(p.bairro), Str(p.numero), Str(p.municipio), Str(p.uf));
  }

  /** The public fields, before compaction, for any field values. */
  function PublicFieldsOf(nome: string, nomeLower: string, tel: string, endereco: seq<Entry>, prefs: JsValue, alergias: JsValue): seq<Entry> {
    [Entry("type", JsString("cliente")), Entry("nome", JsString(nome)),
     Entry("nomeLower", JsString(nomeLower)), Entry("tel", JsString(tel)),
     Entry("endereco", Object(endereco)), Entry("prefs", prefs),
     Entry("alergias", alergias), Entry("createdAt", Timestamp), Entry("updatedAt", Timestamp)]
  }

  /** The name fields survive compaction, and the phone exactly when it is not blank. */
  lemma PublicNameEntries(nome: string, nomeLower: string, tel: string, endereco: seq<Entry>, prefs: JsValue, alergias: JsValue)
    requires nome != "" && nomeLower != ""
    ensures var d := Compacted(PublicFieldsOf(nome, nomeLower, tel, endereco, prefs, alergias));
      && Entry("type", JsString("cliente")) in d
      && Entry("nome", JsString(nome)) in d
      && Entry("nomeLower", JsString(nomeLower)) in d
      && (Entry("tel", JsString(tel)) in d <==> tel != "")
  {
    var f := PublicFieldsOf(nome, nomeLower, tel, endereco, prefs, alergias);
    KeptUnlessEmpty(f, 3, "tel", tel);
    KeptAt(f, 0); KeptAt(f, 1); KeptAt(f, 2);
  }

  /** The address, preferences, allergies and timestamps always survive compaction. */
  lemma PublicOtherEntries(nome: string, nomeLower: string, tel: string, endereco: seq<Entry>, prefs: JsValue, alergias: JsValue)
    requires !Dropped(prefs) && !Dropped(alergias)
    ensures var d := Compacted(PublicFieldsOf(nome, nomeLower, tel, endereco, prefs, alergias));
      && Entry("endereco", Object(endereco)) in d
      && Entry("prefs", prefs) in d && Entry("alergias", alergias) in d
      && Entry("createdAt", Timestamp) in d && Entry("updatedAt", Timestamp) in d
  {
    var f := PublicFieldsOf(nome, nomeLower, tel, endereco, prefs, alergias);
    KeptAt(f, 4); KeptAt(f, 5); KeptAt(f, 6); KeptAt(f, 7); KeptAt(f, 8);
  }

  /** The public document keeps the trimmed name and its lower-case form, and the phone
      exactly when it has digits. */
  lemma PublicDocNames(uid: Option<string>, p: ClientePayload)
    requires SaveClientCheck(uid, p).None?
    ensures var d := PublicDoc(p);
      && Entry("type", JsString("cliente")) in d
      && Entry("nome", JsString(Str(p.nome))) in d
      && Entry("nomeLower", JsString(Lower(Str(p.nome)))) in d
      && (Entry("tel", JsString(Digits(p.telefone))) in d <==> Digits(p.telefone) != "")
  {
    var nome := Str(p.nome);
    assert nome != "";
    assert Lower(nome) != "";
    PublicNameEntries(nome, Lower(nome), Digits(p.telefone), Compacted(AddressFields(p)), PrefsValue(p), AllergiesValue(p));
  }

}
