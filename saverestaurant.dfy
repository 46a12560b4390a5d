/**
 * Restaurant sign-up on the client (services/saveRestaurant.ts): the file-extension guess
 * for uploaded files, the fallback chain for the logo and menu extensions, the base document
 * added to `restaurants`, and the second write that attaches the uploaded files' URLs.
 * Uploading is I/O: the storage URL of an uploaded path is the parameter `urlOf`, and the
 * document id that `addDoc` assigns and the clock readings are parameters too.
 */
module RestaurantService {
  import opened Wrappers
  import opened Text
  import Documents
  import Registration

  // ---------------------------------------------------------------------------
  // guessExt: the first match of /\.(\w+)(?:\?|#|$)/i
  // ---------------------------------------------------------------------------

  /** `\w`: an ASCII letter, digit or underscore. */
  predicate IsWordChar(c: char) { IsLetter(c) || IsDigit(c) || c == '_' }

  /** The characters an extension is made of once lower-cased. */
  predicate IsExtChar(c: char) { IsLower(c) || IsDigit(c) || c == '_' }

  /** What may follow the extension: `?`, `#`, or the end of the text. */
  predicate EndsExtension(s: string, j: nat)
    requires j <= |s|
  {
    j == |s| || s[j] == '?' || s[j] == '#'
  }

  /** The regular expression matches `s[i..]` with the group capturing `s[i+1..j]`: a dot,
      one or more word characters, then `?`, `#` or the end. */
  predicate MatchesAt(s: string, i: nat, j: nat) {
    && i < |s| && i + 1 < j <= |s| && s[i] == '.'
    && (forall k :: i + 1 <= k < j ==> IsWordChar(s[k]))
    && EndsExtension(s, j)
  }

  /** The end of the run of word characters that starts at `j`. */
  function RunEnd(s: string, j: nat): (e: nat)
    requires j <= |s|
    ensures j <= e <= |s|
    ensures forall k :: j <= k < e ==> IsWordChar(s[k])
    ensures e < |s| ==> !IsWordChar(s[e])
    decreases |s| - j
  {
    if j == |s| || !IsWordChar(s[j]) then j else RunEnd(s, j + 1)
  }

  /** A run of word characters up to `j` means the run goes at least that far. */
  lemma {:induction false} RunEndReaches(s: string, from: nat, j: nat)
    requires from <= j <= |s| && forall k :: from <= k < j ==> IsWordChar(s[k])
    ensures RunEnd(s, from) >= j
    decreases j - from
  {
    if from < j {
      RunEndReaches(s, from + 1, j);
    }
  }

  /** A non-word character (or the end) at `j` stops the run there at the latest. */
  lemma {:induction false} RunEndStops(s: string, from: nat, j: nat)
    requires from <= j <= |s| && (j == |s| || !IsWordChar(s[j]))
    ensures RunEnd(s, from) <= j
    decreases j - from
  {
    if from < j && IsWordChar(s[from]) {
      RunEndStops(s, from + 1, j);
    }
  }

  /** A dot at `i` starts a match: its word run is non-empty and ends where an extension may end. */
  predicate ExtAt(s: string, i: nat)
    requires i < |s|
  {
    s[i] == '.' && RunEnd(s, i + 1) > i + 1 && EndsExtension(s, RunEnd(s, i + 1))
  }

  /** Since `\w+` is greedy and a shorter run is followed by another word character, the only
      capture that can match at `i` is the whole word run. */
  lemma MatchIsWholeRun(s: string, i: nat, j: nat)
    requires i < |s|
    ensures MatchesAt(s, i, j) <==> ExtAt(s, i) && j == RunEnd(s, i + 1)
  {
    if MatchesAt(s, i, j) {
      RunEndReaches(s, i + 1, j);
      RunEndStops(s, i + 1, j);
    }
  }

  /** The first position at or after `i` where a match starts. */
  function FindExt(s: string, i: nat): (r: Option<nat>)
    requires i <= |s|
    ensures r.Some? ==> i <= r.value < |s| && ExtAt(s, r.value)
    ensures r.Some? ==> forall k :: i <= k < r.value ==> !ExtAt(s, k)
    ensures r.None? ==> forall k :: i <= k < |s| ==> !ExtAt(s, k)
    decreases |s| - i
  {
    if i == |s| then None
    else if ExtAt(s, i) then Some(i)
    else FindExt(s, i + 1)
  }

  /** `guessExt`: "" for null, undefined or "", else "." and the lower-cased first match, or "". */
  function GuessExt(nameOrUri: Option<string>): (r: string)
    ensures r == "" || (|r| >= 2 && r[0] == '.' && forall k :: 1 <= k < |r| ==> IsExtChar(r[k]))
  {
    if nameOrUri.None? || nameOrUri.value == "" then ""
    else
      var s := nameOrUri.value;
      match FindExt(s, 0)
      case None => ""
      case Some(i) =>
        var ext := "." + Lower(s[i + 1..RunEnd(s, i + 1)]);
        assert forall k :: 1 <= k < |ext| ==> ext[k] == LowerChar(s[i + k]);
        ext
  }

  /** `i` is the leftmost position where the expression matches. */
  ghost predicate IsLeftmostMatch(s: string, i: nat) {
    i < |s| && MatchesAt(s, i, RunEnd(s, i + 1)) && forall k, j :: 0 <= k < i ==> !MatchesAt(s, k, j)
  }

  /** The guess against the regular expression's own semantics: there is an extension exactly
      when some position matches, and then it is the capture at the leftmost such position,
      lower-cased. */
  lemma GuessExtIsLeftmostMatch(s: string)
    requires s != ""
    ensures GuessExt(Some(s)) != "" <==> exists i, j :: MatchesAt(s, i, j)
    ensures GuessExt(Some(s)) != "" ==>
      exists i: nat :: IsLeftmostMatch(s, i) && GuessExt(Some(s)) == "." + Lower(s[i + 1..RunEnd(s, i + 1)])
  {
    match FindExt(s, 0)
    case None =>
      forall i, j | MatchesAt(s, i, j) ensures false {
        MatchIsWholeRun(s, i, j);
      }
    case Some(i) =>
      var e := RunEnd(s, i + 1);
      MatchIsWholeRun(s, i, e);
      forall k, j | 0 <= k < i ensures !MatchesAt(s, k, j) {
        MatchIsWholeRun(s, k, j);
      }
      assert IsLeftmostMatch(s, i);
      assert GuessExt(Some(s)) == "." + Lower(s[i + 1..e]);
  }

  /** Null, undefined and "" give no extension. */
  lemma GuessExtOfNothing()
    ensures GuessExt(None) == "" && GuessExt(Some("")) == ""
  {
  }

  /** `"a.JPG?x"` gives ".jpg": the group is lower-cased and `?` may end it. */
  lemma GuessExtQuery()
    ensures GuessExt(Some("a.JPG?x")) == ".jpg"
  {
    var s := "a.JPG?x";
    assert !ExtAt(s, 0);
    assert RunEnd(s, 2) == 5;
    assert ExtAt(s, 1);
    assert FindExt(s, 0) == Some(1);
    assert s[2..5] == "JPG";
    assert Lower("JPG") == "jpg";
  }

  /** In `"a.b.c"` the first dot's run `b` is followed by a dot, not by `?`, `#` or the end,
      so the match is the last dot's: ".c". */
  lemma GuessExtLastDot()
    ensures GuessExt(Some("a.b.c")) == ".c"
  {
    var t := "a.b.c";
    assert RunEnd(t, 2) == 3;
    assert !ExtAt(t, 0) && !ExtAt(t, 1) && !ExtAt(t, 2);
    assert RunEnd(t, 4) == 5;
    assert ExtAt(t, 3);
    assert FindExt(t, 0) == Some(3);
    assert t[4..5] == "c";
  }

  /** A URI without a dot has no extension. */
  lemma GuessExtNoDot()
    ensures GuessExt(Some("content://media/42")) == ""
  {
    var v := "content://media/42";
    assert forall k :: 0 <= k < |v| ==> v[k] != '.';
    assert FindExt(v, 0).None?;
  }

  // ---------------------------------------------------------------------------
  // Extension fallbacks and upload paths
  // ---------------------------------------------------------------------------

  /** A well-formed extension: a dot and at least one lower-case word character. */
  predicate IsExtension(e: string) {
    |e| >= 2 && e[0] == '.' && forall k :: 1 <= k < |e| ==> IsExtChar(e[k])
  }

  /** `guessExt(logoUri) || ".jpg"`. */
  function LogoExt(logoUri: string): string {
    var g := GuessExt(Some(logoUri));
    if g != "" then g else ".jpg"
  }

  /** `guessExt(cardapioNome) || guessExt(cardapioUri) || ".pdf"`. */
  function MenuExt(cardapioNome: string, cardapioUri: string): string {
    var byName := GuessExt(Some(cardapioNome));
    if byName != "" then byName
    else
      var byUri := GuessExt(Some(cardapioUri));
      if byUri != "" then byUri else ".pdf"
  }

  /** Both fallbacks always give an extension; the menu prefers the picked file's name, then
      its URI, then ".pdf"; the logo falls back to ".jpg". */
  lemma ExtensionFallbacks(logoUri: string, cardapioNome: string, cardapioUri: string)
    ensures IsExtension(LogoExt(logoUri)) && IsExtension(MenuExt(cardapioNome, cardapioUri))
    ensures GuessExt(Some(logoUri)) == "" ==> LogoExt(logoUri) == ".jpg"
    ensures GuessExt(Some(logoUri)) != "" ==> LogoExt(logoUri) == GuessExt(Some(logoUri))
    ensures GuessExt(Some(cardapioNome)) != "" ==> MenuExt(cardapioNome, cardapioUri) == GuessExt(Some(cardapioNome))
    ensures GuessExt(Some(cardapioNome)) == "" && GuessExt(Some(cardapioUri)) != "" ==>
              MenuExt(cardapioNome, cardapioUri) == GuessExt(Some(cardapioUri))
    ensures GuessExt(Some(cardapioNome)) == "" && GuessExt(Some(cardapioUri)) == "" ==>
              MenuExt(cardapioNome, cardapioUri) == ".pdf"
  {
    assert IsExtension(".jpg") && IsExtension(".pdf");
  }

  /** `restaurants/{uid}/{id}/logo_{millis}{ext}`. */
  function LogoPath(uid: string, id: string, millis: nat, logoUri: string): string {
    "restaurants/" + uid + "/" + id + "/logo_" + Decimal(millis) + LogoExt(logoUri)
  }

  /** `restaurants/{uid}/{id}/cardapio_{millis}{ext}`. */
  function MenuPath(uid: string, id: string, millis: nat, cardapioNome: string, cardapioUri: string): string {
    "restaurants/" + uid + "/" + id + "/cardapio_" + Decimal(millis) + MenuExt(cardapioNome, cardapioUri)
  }

  // ---------------------------------------------------------------------------
  // The documents
  // ---------------------------------------------------------------------------

  /** The `operational` part of the input, with the two time fields the function expects. */
  datatype OperationalInput = OperationalInput(
    reserva: bool, fila: bool, filas: seq<Documents.Queue>, diasFuncionamento: map<string, bool>,
    horarioAbertura: string, horarioFechamento: string,
    cardapioUri: Option<string>, cardapioNome: string, precoMinimo: int, precoMaximo: int)

  datatype SaveRestaurantInput = SaveRestaurantInput(
    basics: Registration.RestaurantBasics, details: Registration.RestaurantDetails, operational: OperationalInput)

  datatype DetailsDoc = DetailsDoc(descricao: string, instagram: string, facebook: string, whatsapp: string,
                                   cuisines: seq<string>, logoUrl: Option<string>)

  datatype OperationalDoc = OperationalDoc(
    reserva: bool, fila: bool, filas: seq<Documents.Queue>, diasFuncionamento: map<string, bool>,
    horarioAbertura: string, horarioFechamento: string, cardapioUrl: Option<string>,
    precoMinimo: int, precoMaximo: int)

  /** A document of `restaurants` as this function writes it: the basics spread at the top. */
  datatype RestaurantDoc = RestaurantDoc(
    nome: string, cnpj: string, telefone: string, endereco: Registration.Address,
    details: DetailsDoc, operational: OperationalDoc,
    donoUid: string, status: string, createdAt: nat, updatedAt: nat)

  /** The document handed to `addDoc`; both URLs null until the uploads are done. */
  function BaseDoc(uid: string, input: SaveRestaurantInput, now: nat): RestaurantDoc {
    var b, d, o := input.basics, input.details, input.operational;
    RestaurantDoc(
      b.nome, b.cnpj, b.telefone, b.endereco,
      DetailsDoc(d.descricao, d.instagram, d.facebook, d.whatsapp, d.cuisines, None),
      OperationalDoc(o.reserva, o.fila, o.filas, o.diasFuncionamento, o.horarioAbertura, o.horarioFechamento,
                     None, o.precoMinimo, o.precoMaximo),
      uid, "ativo", now, now)
  }

  /** An entry of the `updates` object: a key and an uploaded file's URL. */
  datatype FieldWrite = FieldWrite(key: string, url: string)

  /** A nullable string is truthy when present and not "". */
  predicate Truthy(v: Option<string>) { v.Some? && v.value != "" }

  /** What the upload step puts in `updates`: the logo's URL when there is a logo, then the
      menu's URL when there is a menu. */
  function UrlWrites(uid: string, id: string, input: SaveRestaurantInput, logoMillis: nat, menuMillis: nat,
                     urlOf: string -> string): seq<FieldWrite>
  {
    var d, o := input.details, input.operational;
    (if Truthy(d.logoUri) then [FieldWrite("details.logoUrl", urlOf(LogoPath(uid, id, logoMillis, d.logoUri.value)))] else [])
    + (if Truthy(o.cardapioUri)
       then [FieldWrite("operational.cardapioUrl", urlOf(MenuPath(uid, id, menuMillis, o.cardapioNome, o.cardapioUri.value)))]
       else [])
  }

  /** The outcome of a save that got past the sign-in check. */
  datatype Saved = Saved(id: string, base: RestaurantDoc, updates: seq<FieldWrite>, secondWrite: bool)

  const NotSignedIn := "Usuário não autenticado."

  /** `saveRestaurant` without the I/O: fails before any write when nobody is signed in;
      otherwise adds the base document, fills `updates` upload by upload, and writes it back
      only when it is not empty. */
  method SaveRestaurant(uid: Option<string>, input: SaveRestaurantInput, id: string, now: nat,
                        logoMillis: nat, menuMillis: nat, urlOf: string -> string)
    returns (r: Result<Saved, string>)
    ensures uid.None? || uid.value == "" <==> r.Failure?
    ensures r.Failure? ==> r.error == NotSignedIn
    ensures r.Success? ==> r.value == Saved(id, BaseDoc(uid.value, input, now),
                                            UrlWrites(uid.value, id, input, logoMillis, menuMillis, urlOf),
                                            |UrlWrites(uid.value, id, input, logoMillis, menuMillis, urlOf)| > 0)
  {
    if uid.None? || uid.value == "" {
      return Failure(NotSignedIn);
    }
    var u := uid.value;
    var base := BaseDoc(u, input, now);
    var updates: seq<FieldWrite> := [];
    if input.details.logoUri.Some? && input.details.logoUri.value != "" {
      var ext := LogoExt(input.details.logoUri.value);
      var logoPath := "restaurants/" + u + "/" + id + "/logo_" + Decimal(logoMillis) + ext;
      updates := updates + [FieldWrite("details.logoUrl", urlOf(logoPath))];
    }
    if input.operational.cardapioUri.Some? && input.operational.cardapioUri.value != "" {
      var ext := MenuExt(input.operational.cardapioNome, input.operational.cardapioUri.value);
      var menuPath := "restaurants/" + u + "/" + id + "/cardapio_" + Decimal(menuMillis) + ext;
      updates := updates + [FieldWrite("operational.cardapioUrl", urlOf(menuPath))];
    }
    return Success(Saved(id, base, updates, |updates| > 0));
  }

  /** The base document belongs to the signed-in user, is active, carries both URLs as null,
      and keeps the basics and the form's values. */
  lemma BaseDocShape(uid: string, input: SaveRestaurantInput, now: nat)
    ensures var d := BaseDoc(uid, input, now);
      && d.donoUid == uid && d.status == "ativo"
      && d.details.logoUrl.None? && d.operational.cardapioUrl.None?
      && Registration.RestaurantBasics(d.nome, d.cnpj, d.telefone, d.endereco) == input.basics
      && d.details.cuisines == input.details.cuisines
      && d.operational.diasFuncionamento == input.operational.diasFuncionamento
      && d.createdAt == now && d.updatedAt == now
  {
  }

  /** The second write happens exactly when a logo or a menu was picked; each URL is the one
      stored for a path ending in that file's extension. */
  lemma UrlWritesShape(uid: string, id: string, input: SaveRestaurantInput, logoMillis: nat, menuMillis: nat,
                       urlOf: string -> string)
    ensures var w := UrlWrites(uid, id, input, logoMillis, menuMillis, urlOf);
      && (|w| > 0 <==> Truthy(input.details.logoUri) || Truthy(input.operational.cardapioUri))
      && |w| <= 2
      && (forall k :: 0 <= k < |w| ==> w[k].key == "details.logoUrl" || w[k].key == "operational.cardapioUrl")
      && ((exists k :: 0 <= k < |w| && w[k].key == "details.logoUrl") <==> Truthy(input.details.logoUri))
      && ((exists k :: 0 <= k < |w| && w[k].key == "operational.cardapioUrl") <==> Truthy(input.operational.cardapioUri))
  {
    var w := UrlWrites(uid, id, input, logoMillis, menuMillis, urlOf);
    if Truthy(input.details.logoUri) {
      assert w[0].key == "details.logoUrl";
    }
    if Truthy(input.operational.cardapioUri) {
      assert w[|w| - 1].key == "operational.cardapioUrl";
    }
  }

  // ---------------------------------------------------------------------------
  // Where the URLs land
  // ---------------------------------------------------------------------------

  /** A stored document: the typed fields plus any top-level fields whose names contain a dot. */
  datatype StoredDoc = StoredDoc(doc: RestaurantDoc, dotted: map<string, string>)

  /** `setDoc(..., {...updates, updatedAt}, {merge: true})` as written: a merge-set takes each
      key of the object as one field name, so "details.logoUrl" becomes a new top-level field
      of that name and the nested `details.logoUrl` stays null. */
  function MergeSetLiteral(d: StoredDoc, writes: seq<FieldWrite>, now: nat): StoredDoc
    decreases |writes|
  {
    if writes == [] then d.(doc := d.doc.(updatedAt := now))
    else MergeSetLiteral(d.(dotted := d.dotted[writes[0].key := writes[0].url]), writes[1..], now)
  }

  /** Writing `updates` as field paths (as `updateDoc` reads dotted keys): the URL lands in the
      nested field its key names. */
  function WriteFieldPaths(d: RestaurantDoc, writes: seq<FieldWrite>, now: nat): RestaurantDoc
    decreases |writes|
  {
    if writes == [] then d.(updatedAt := now)
    else
      var w := writes[0];
      var d' :=
        if w.key == "details.logoUrl" then d.(details := d.details.(logoUrl := Some(w.url)))
        else if w.key == "operational.cardapioUrl" then d.(operational := d.operational.(cardapioUrl := Some(w.url)))
        else d;
      WriteFieldPaths(d', writes[1..], now)
  }

  /** The document once `saveRestaurant` is done, as written. */
  function FinalDocAsWritten(s: Saved, later: nat): StoredDoc {
    if s.secondWrite then MergeSetLiteral(StoredDoc(s.base, map[]), s.updates, later) else StoredDoc(s.base, map[])
  }

  /** The document once `saveRestaurant` is done, with the URLs written to their nested fields. */
  function FinalDoc(s: Saved, later: nat): RestaurantDoc {
    if s.secondWrite then WriteFieldPaths(s.base, s.updates, later) else s.base
  }

  lemma {:induction false} MergeSetLiteralKeepsDoc(d: StoredDoc, writes: seq<FieldWrite>, now: nat)
    ensures MergeSetLiteral(d, writes, now).doc == d.doc.(updatedAt := now)
    ensures forall k :: 0 <= k < |writes| ==> writes[k].key in MergeSetLiteral(d, writes, now).dotted
    decreases |writes|
  {
    if writes != [] {
      var d' := d.(dotted := d.dotted[writes[0].key := writes[0].url]);
      MergeSetLiteralKeepsDoc(d', writes[1..], now);
      forall k | 0 <= k < |writes| ensures writes[k].key in MergeSetLiteral(d, writes, now).dotted {
        if k > 0 {
          assert writes[k] == writes[1..][k - 1];
        } else {
          MergeSetLiteralKeepsKeys(d', writes[1..], now, writes[0].key);
        }
      }
    }
  }

  lemma {:induction false} MergeSetLiteralKeepsKeys(d: StoredDoc, writes: seq<FieldWrite>, now: nat, key: string)
    requires key in d.dotted
    ensures key in MergeSetLiteral(d, writes, now).dotted
    decreases |writes|
  {
    if writes != [] {
      MergeSetLiteralKeepsKeys(d.(dotted := d.dotted[writes[0].key := writes[0].url]), writes[1..], now, key);
    }
  }

  /** The writes when both a logo and a menu were picked. */
  lemma BothWrites(uid: string, id: string, input: SaveRestaurantInput, logoMillis: nat, menuMillis: nat,
                   urlOf: string -> string)
    requires Truthy(input.details.logoUri) && Truthy(input.operational.cardapioUri)
    ensures UrlWrites(uid, id, input, logoMillis, menuMillis, urlOf)
            == [FieldWrite("details.logoUrl", urlOf(LogoPath(uid, id, logoMillis, input.details.logoUri.value))),
                FieldWrite("operational.cardapioUrl",
                           urlOf(MenuPath(uid, id, menuMillis, input.operational.cardapioNome, input.operational.cardapioUri.value)))]
  {
  }

  /** A logo and a menu that were uploaded: as written, both URLs end up in top-level fields
      named "details.logoUrl" and "operational.cardapioUrl", and the nested fields the app
      reads stay null. */
  lemma UrlsMissNestedFields(uid: string, id: string, input: SaveRestaurantInput, now: nat,
                             logoMillis: nat, menuMillis: nat, urlOf: string -> string, later: nat)
    requires Truthy(input.details.logoUri) && Truthy(input.operational.cardapioUri)
    ensures var w := UrlWrites(uid, id, input, logoMillis, menuMillis, urlOf);
      var f := FinalDocAsWritten(Saved(id, BaseDoc(uid, input, now), w, |w| > 0), later);
      && f.doc.details.logoUrl.None? && f.doc.operational.cardapioUrl.None?
      && "details.logoUrl" in f.dotted && "operational.cardapioUrl" in f.dotted
  {
    var w := UrlWrites(uid, id, input, logoMillis, menuMillis, urlOf);
    BothWrites(uid, id, input, logoMillis, menuMillis, urlOf);
    MergeSetLiteralKeepsDoc(StoredDoc(BaseDoc(uid, input, now), map[]), w, later);
    assert w[0].key == "details.logoUrl" && w[1].key == "operational.cardapioUrl";
  }

  /** Written as field paths, the uploaded URLs land in the nested fields. */
  lemma UrlsReachNestedFields(uid: string, id: string, input: SaveRestaurantInput, now: nat,
                              logoMillis: nat, menuMillis: nat, urlOf: string -> string, later: nat)
    requires Truthy(input.details.logoUri) && Truthy(input.operational.cardapioUri)
    ensures var w := UrlWrites(uid, id, input, logoMillis, menuMillis, urlOf);
      var f := FinalDoc(Saved(id, BaseDoc(uid, input, now), w, |w| > 0), later);
      && f.details.logoUrl == Some(urlOf(LogoPath(uid, id, logoMillis, input.details.logoUri.value)))
      && f.operational.cardapioUrl
         == Some(urlOf(MenuPath(uid, id, menuMillis, input.operational.cardapioNome, input.operational.cardapioUri.value)))
  {
    var w := UrlWrites(uid, id, input, logoMillis, menuMillis, urlOf);
    BothWrites(uid, id, input, logoMillis, menuMillis, urlOf);
    var base := BaseDoc(uid, input, now);
    var d1 := base.(details := base.details.(logoUrl := Some(w[0].url)));
    var d2 := d1.(operational := d1.operational.(cardapioUrl := Some(w[1].url)));
    assert WriteFieldPaths(base, w, later) == WriteFieldPaths(d1, w[1..], later);
    assert WriteFieldPaths(d1, w[1..], later) == WriteFieldPaths(d2, w[1..][1..], later);
    assert w[1..][1..] == [];
  }

  /** Written as field paths, a URL is set exactly for the files that were picked, and nothing
      else but `updatedAt` changes. */
  lemma FinalDocFields(uid: string, id: string, input: SaveRestaurantInput, now: nat,
                       logoMillis: nat, menuMillis: nat, urlOf: string -> string, later: nat)
    ensures var w := UrlWrites(uid, id, input, logoMillis, menuMillis, urlOf);
      var base := BaseDoc(uid, input, now);
      var f := FinalDoc(Saved(id, base, w, |w| > 0), later);
      && (Truthy(input.details.logoUri) <==> f.details.logoUrl.Some?)
      && (Truthy(input.operational.cardapioUri) <==> f.operational.cardapioUrl.Some?)
      && f.(details := base.details, operational := base.operational, updatedAt := base.updatedAt) == base
      && f.details.(logoUrl := None) == base.details
      && f.operational.(cardapioUrl := None) == base.operational
  {
    var w := UrlWrites(uid, id, input, logoMillis, menuMillis, urlOf);
    var base := BaseDoc(uid, input, now);
    if |w| == 2 {
      var d1 := base.(details := base.details.(logoUrl := Some(w[0].url)));
      var d2 := d1.(operational := d1.operational.(cardapioUrl := Some(w[1].url)));
      assert WriteFieldPaths(base, w, later) == WriteFieldPaths(d1, w[1..], later);
      assert WriteFieldPaths(d1, w[1..], later) == WriteFieldPaths(d2, w[1..][1..], later);
      assert w[1..][1..] == [];
    } else if |w| == 1 && Truthy(input.details.logoUri) {
      var d1 := base.(details := base.details.(logoUrl := Some(w[0].url)));
      assert WriteFieldPaths(base, w, later) == WriteFieldPaths(d1, w[1..], later);
      assert w[1..] == [];
    } else if |w| == 1 {
      var d1 := base.(operational := base.operational.(cardapioUrl := Some(w[0].url)));
      assert WriteFieldPaths(base, w, later) == WriteFieldPaths(d1, w[1..], later);
      assert w[1..] == [];
    }
  }
}
