/**
 * The last step of the sign-up wizard (app/screens/registerfinal.tsx): the e-mail and
 * password checks, the order in which the finish handler applies them, the completeness
 * check on the client's earlier steps before `saveClient` is called, and the mapping from
 * a failure to the message shown. Creating the account and saving are I/O; the model says
 * which of them the handler reaches and with what.
 */
module FinalStep {
  import opened Wrappers
  import opened Text
  import Registration
  import ClientService

  // ---------------------------------------------------------------------------
  // validateEmail: /^[^\s@]+@[^\s@]+\.[^\s@]+$/
  // ---------------------------------------------------------------------------

  /** `[^\s@]`. */
  predicate IsEmailChar(c: char) { !IsSpace(c) && c != '@' }

  predicate AllEmailChars(s: string) { forall k :: 0 <= k < |s| ==> IsEmailChar(s[k]) }

  /** The first index of `c` in `s` at or after `from`. */
  function IndexOf(s: string, c: char, from: nat): (r: Option<nat>)
    requires from <= |s|
    ensures r.Some? ==> from <= r.value < |s| && s[r.value] == c
    ensures r.Some? ==> forall k :: from <= k < r.value ==> s[k] != c
    ensures r.None? ==> forall k :: from <= k < |s| ==> s[k] != c
    decreases |s| - from
  {
    if from == |s| then None else if s[from] == c then Some(from) else IndexOf(s, c, from + 1)
  }

  /** A dot with at least one character on each side. */
  predicate HasInnerDot(d: string) { exists k :: 0 < k < |d| - 1 && d[k] == '.' }

  /** `validateEmail`: one `@` after a non-empty local part, no white space anywhere, and a
      domain with a dot that has text on both sides. */
  predicate ValidateEmail(v: string) {
    match IndexOf(v, '@', 0)
    case None => false
    case Some(i) =>
      && i > 0
      && (forall k :: 0 <= k < |v| && k != i ==> IsEmailChar(v[k]))
      && HasInnerDot(v[i + 1..])
  }

  /** The expression's own reading: the text is `a@b.c` with `a`, `b`, `c` non-empty runs of
      characters that are neither white space nor `@` (`b` and `c` may hold dots). */
  ghost predicate EmailShape(v: string) {
    exists a, b, c :: && a != "" && b != "" && c != ""
                      && AllEmailChars(a) && AllEmailChars(b) && AllEmailChars(c)
                      && v == a + "@" + b + "." + c
  }

  lemma ValidateEmailIsShape(v: string)
    ensures ValidateEmail(v) <==> EmailShape(v)
  {
    if ValidateEmail(v) {
      var i := IndexOf(v, '@', 0).value;
      var d := v[i + 1..];
      var k :| 0 < k < |d| - 1 && d[k] == '.';
      var a, b, c := v[..i], d[..k], d[k + 1..];
      assert v == a + "@" + b + "." + c;
      assert AllEmailChars(a) by {
        forall j | 0 <= j < |a| ensures IsEmailChar(a[j]) { assert a[j] == v[j]; }
      }
      assert AllEmailChars(b) by {
        forall j | 0 <= j < |b| ensures IsEmailChar(b[j]) { assert b[j] == v[i + 1 + j]; }
      }
      assert AllEmailChars(c) by {
        forall j | 0 <= j < |c| ensures IsEmailChar(c[j]) { assert c[j] == v[i + 1 + k + 1 + j]; }
      }
    }
    if EmailShape(v) {
      var a, b, c :| && a != "" && b != "" && c != ""
                     && AllEmailChars(a) && AllEmailChars(b) && AllEmailChars(c)
                     && v == a + "@" + b + "." + c;
      EmailShapeValid(v, a, b, c);
    }
  }

  lemma EmailShapeValid(v: string, a: string, b: string, c: string)
    requires a != "" && b != "" && c != ""
    requires AllEmailChars(a) && AllEmailChars(b) && AllEmailChars(c)
    requires v == a + "@" + b + "." + c
    ensures ValidateEmail(v)
  {
    var i := |a|;
    forall k | 0 <= k < i ensures v[k] != '@' { assert v[k] == a[k]; }
    assert v[i] == '@';
    assert IndexOf(v, '@', 0) == Some(i) by {
      IndexOfFirst(v, '@', 0, i);
    }
    forall k | 0 <= k < |v| && k != i ensures IsEmailChar(v[k]) {
      if k < i {
        assert v[k] == a[k];
      } else if k <= i + |b| {
        assert v[k] == b[k - i - 1];
      } else if k > i + |b| + 1 {
        assert v[k] == c[k - i - |b| - 2];
      }
    }
    var d := v[i + 1..];
    assert d == b + "." + c;
    assert d[|b|] == '.';
  }

  /** The first occurrence found from `from` is the one at `i` when none comes before it. */
  lemma {:induction false} IndexOfFirst(s: string, c: char, from: nat, i: nat)
    requires from <= i < |s| && s[i] == c && forall k :: from <= k < i ==> s[k] != c
    ensures IndexOf(s, c, from) == Some(i)
    decreases i - from
  {
    if from < i {
      IndexOfFirst(s, c, from + 1, i);
    }
  }

  lemma ValidateEmailExamples()
    ensures ValidateEmail("ana@rota.com")
    ensures !ValidateEmail("ana@rota") && !ValidateEmail("@rota.com") && !ValidateEmail("ana@@rota.com")
  {
    EmailShapeValid("ana@rota.com", "ana", "rota", "com");
    assert IndexOf("ana@rota", '@', 0) == Some(3) by { IndexOfFirst("ana@rota", '@', 0, 3); }
    assert "ana@rota"[4..] == "rota";
    assert IndexOf("ana@@rota.com", '@', 0) == Some(3) by { IndexOfFirst("ana@@rota.com", '@', 0, 3); }
    assert !IsEmailChar("ana@@rota.com"[4]);
  }

  // ---------------------------------------------------------------------------
  // validatePassword: length >= 6 and /^(?=.*[A-Za-z])(?=.*\d)(?=.*[@$!%*?&])/
  // ---------------------------------------------------------------------------

  predicate IsSymbol(c: char) {
    c == '@' || c == '$' || c == '!' || c == '%' || c == '*' || c == '?' || c == '&'
  }

  /** The length of the first line: `.` does not match a line terminator, so each lookahead
      only sees the text before the first one. */
  function FirstLineLength(v: string): (n: nat)
    ensures n <= |v|
    ensures forall k :: 0 <= k < n ==> !IsLineTerminator(v[k])
    ensures n < |v| ==> IsLineTerminator(v[n])
  {
    if v == [] || IsLineTerminator(v[0]) then 0 else 1 + FirstLineLength(v[1..])
  }

  /** `(?=.*[class])` at the start: a character of the class before the first line break. */
  predicate SeenOnFirstLine(v: string, inClass: char -> bool) {
    exists k :: 0 <= k < FirstLineLength(v) && inClass(v[k])
  }

  /** `validatePassword`: at least six UTF-16 code units, and a letter, a digit and a symbol
      before the first line break. */
  predicate ValidatePassword(v: string) {
    && Utf16Length(v) >= 6
    && SeenOnFirstLine(v, IsLetter)
    && SeenOnFirstLine(v, IsDigit)
    && SeenOnFirstLine(v, IsSymbol)
  }

  /** A letter, a digit and a symbol on a later line do not count. */
  lemma ValidatePasswordFirstLineOnly()
    ensures ValidatePassword("Rota1@")
    ensures !ValidatePassword("rota\n1@")
  {
    assert FirstLineLength("Rota1@"[1..][1..][1..][1..][1..][1..]) == 0;
    assert "Rota1@"[1..][1..][1..][1..][1..][1..] == [];
    assert FirstLineLength("Rota1@") == 6;
    assert IsLetter("Rota1@"[0]) && IsDigit("Rota1@"[4]) && IsSymbol("Rota1@"[5]);
    var w := "rota\n1@";
    assert w[1..][1..][1..][1..][0] == '\n';
    assert FirstLineLength(w) == 4;
    assert forall k :: 0 <= k < 4 ==> !IsDigit(w[k]);
  }

  /** The length is JavaScript's: a character beyond the Basic Multilingual Plane counts twice,
      so five characters can be long enough. */
  lemma ValidatePasswordCountsCodeUnits(v: string)
    requires v == "a1@\U{1F600}\U{1F600}"
    ensures |v| == 5 && Utf16Length(v) == 7
    ensures ValidatePassword(v)
  {
    assert v[1..][1..][1..][1..][1..] == [];
    assert v[1..][1..][1..][0] as int > 0xFFFF && v[1..][1..][1..][1..][0] as int > 0xFFFF;
    assert Utf16Length(v[1..][1..][1..][1..]) == 2;
    assert Utf16Length(v[1..][1..][1..]) == 4;
    assert Utf16Length(v[1..][1..]) == 5;
    assert Utf16Length(v[1..]) == 6;
    assert FirstLineLength(v[1..][1..][1..]) == 2;
    assert FirstLineLength(v) == 5;
    assert IsLetter(v[0]) && IsDigit(v[1]) && IsSymbol(v[2]);
  }

  // ---------------------------------------------------------------------------
  // The finish handler
  // ---------------------------------------------------------------------------

  /** `requiredValid`: all three fields filled in and the two passwords equal. */
  predicate RequiredValid(email: string, password: string, confirm: string) {
    email != "" && password != "" && confirm != "" && password == confirm
  }

  datatype FormError = EmailInvalid | PasswordWeak | PasswordMismatch

  /** What follows a created account. */
  datatype AfterAccount =
    | ClientIncomplete                                     // modal, nothing saved
    | CallSaveClient(payload: ClientService.ClientePayload)
    | NothingToSave                                        // the restaurant flow saves nothing here

  datatype Outcome =
    | Disabled
    | Rejected(error: FormError)
    | CreateAccount(email: string, password: string, next: AfterAccount)

  /** The user type from the route: `params.type || "client"`. */
  function UserTypeOf(param: string): string {
    if param == "" then "client" else param
  }

  /** `!b.nome || !b.cpf || !b.endereco.cep || !b.endereco.uf || !b.endereco.municipio`. */
  predicate ClientIncompleteData(b: Registration.ClientBasics) {
    b.nome == "" || b.cpf == "" || b.endereco.cep == "" || b.endereco.uf == "" || b.endereco.municipio == ""
  }

  /** The object passed to `saveClient`; `alergiasObs || null`. */
  function ClientPayloadOf(b: Registration.ClientBasics, p: Registration.ClientPrefs): ClientService.ClientePayload {
    ClientService.ClientePayload(
      ClientService.Chars(b.nome), ClientService.Chars(b.telefone), ClientService.Chars(b.cpf),
      ClientService.Chars(b.endereco.cep), ClientService.Chars(b.endereco.logradouro),
      ClientService.Chars(b.endereco.bairro), ClientService.Chars(b.endereco.numero),
      ClientService.Chars(b.endereco.uf), ClientService.Chars(b.endereco.municipio),
      Some(p.preferencias),
      if p.alergiasObs == "" then ClientService.Nullish else ClientService.Chars(p.alergiasObs))
  }

  /** Pressing Finish: disabled unless `requiredValid` and not loading; then the e-mail, the
      password's strength and the match are checked in that order; the account is created with
      the trimmed e-mail; for a client the earlier steps must be complete before saving. */
  function Finish(email: string, password: string, confirm: string, loading: bool, typeParam: string,
                  b: Registration.ClientBasics, p: Registration.ClientPrefs): Outcome {
    if !RequiredValid(email, password, confirm) || loading then Disabled
    else if !ValidateEmail(email) then Rejected(EmailInvalid)
    else if !ValidatePassword(password) then Rejected(PasswordWeak)
    else if password != confirm then Rejected(PasswordMismatch)
    else
      CreateAccount(Trim(email), password,
        if UserTypeOf(typeParam) != "client" then NothingToSave
        else if ClientIncompleteData(b) then ClientIncomplete
        else CallSaveClient(ClientPayloadOf(b, p)))
  }

  /** Each check runs only once the earlier ones passed; the mismatch check never fires,
      because the button is disabled while the passwords differ. */
  lemma FinishCheckOrder(email: string, password: string, confirm: string, loading: bool, typeParam: string,
                         b: Registration.ClientBasics, p: Registration.ClientPrefs)
    ensures var o := Finish(email, password, confirm, loading, typeParam, b, p);
      && (o == Rejected(EmailInvalid) <==> RequiredValid(email, password, confirm) && !loading && !ValidateEmail(email))
      && (o == Rejected(PasswordWeak) <==>
            RequiredValid(email, password, confirm) && !loading && ValidateEmail(email) && !ValidatePassword(password))
      && o != Rejected(PasswordMismatch)
      && (o.CreateAccount? <==>
            RequiredValid(email, password, confirm) && !loading && ValidateEmail(email) && ValidatePassword(password))
  {
  }

  /** `saveClient` is called only for a client whose name, CPF, CEP, UF and municipality are
      all filled in, and then with the wizard's values field by field: the address's
      `logradouro` as `endereco`, the preferences as `prefs`, and empty notes as null. */
  lemma SaveClientOnlyWhenComplete(email: string, password: string, confirm: string, loading: bool, typeParam: string,
                                   b: Registration.ClientBasics, p: Registration.ClientPrefs)
    ensures var o := Finish(email, password, confirm, loading, typeParam, b, p);
      && (o.CreateAccount? && o.next.CallSaveClient? <==>
            o.CreateAccount? && UserTypeOf(typeParam) == "client" && !ClientIncompleteData(b))
      && (o.CreateAccount? && o.next.CallSaveClient? ==>
            && o.next.payload.nome == ClientService.Chars(b.nome) && b.nome != ""
            && o.next.payload.cpf == ClientService.Chars(b.cpf) && b.cpf != ""
            && o.next.payload.cep == ClientService.Chars(b.endereco.cep) && b.endereco.cep != ""
            && o.next.payload.uf == ClientService.Chars(b.endereco.uf) && b.endereco.uf != ""
            && o.next.payload.municipio == ClientService.Chars(b.endereco.municipio) && b.endereco.municipio != ""
            && o.next.payload.telefone == ClientService.Chars(b.telefone)
            && o.next.payload.endereco == ClientService.Chars(b.endereco.logradouro)
            && o.next.payload.bairro == ClientService.Chars(b.endereco.bairro)
            && o.next.payload.numero == ClientService.Chars(b.endereco.numero)
            && o.next.payload.prefs == Some(p.preferencias)
            && (o.next.payload.alergias.Nullish? <==> p.alergiasObs == "")
            && (p.alergiasObs != "" ==> o.next.payload.alergias == ClientService.Chars(p.alergiasObs)))
  {
  }

  /** Completeness here only asks for non-empty text: a name of blanks gets past it... */
  lemma BlankNameReachesSaveClient(b: Registration.ClientBasics, p: Registration.ClientPrefs)
    requires b.nome == " " && b.cpf != "" && b.endereco.cep != "" && b.endereco.uf != "" && b.endereco.municipio != ""
    ensures var o := Finish("ana@rota.com", "Rota1@", "Rota1@", false, "", b, p);
      o.CreateAccount? && o.next == CallSaveClient(ClientPayloadOf(b, p))
  {
    ValidateEmailExamples();
    ValidatePasswordFirstLineOnly();
    assert RequiredValid("ana@rota.com", "Rota1@", "Rota1@");
    assert !ClientIncompleteData(b);
  }

  /** ...and `saveClient` then refuses the payload, because the trimmed name is empty. */
  lemma BlankNameRefusedBySaveClient(b: Registration.ClientBasics, p: Registration.ClientPrefs)
    requires b.nome == " "
    ensures ClientService.SaveClientCheck(Some("uid"), ClientPayloadOf(b, p)) == Some(ClientService.NomeRequired)
  {
    assert IsSpace(" "[0]);
    TrimEmptyIff(" ");
  }

  // ---------------------------------------------------------------------------
  // Error messages
  // ---------------------------------------------------------------------------

  const InUseMessage := "Este e-mail já está em uso."
  const PermissionMessage := "Permissão negada nas regras do Firestore."
  const InvalidDataMessage := "Dados inválidos para salvar no Firestore. Verifique CPF/CEP e campos obrigatórios."
  const DefaultMessage := "Falha ao finalizar cadastro."

  /** `t` occurs in `s`. */
  predicate Contains(s: string, t: string) {
    exists k :: 0 <= k <= |s| && OccursAt(s, t, k)
  }

  predicate OccursAt(s: string, t: string, k: nat) {
    k + |t| <= |s| && s[k..k + |t|] == t
  }

  /** The message shown for a failure with this `code` and `message` (absent is ""):
      the three known codes first, `invalid-argument` also found in the message regardless
      of ASCII case, and otherwise the failure's own message or the default text. */
  function ErrorMessage(code: string, message: string): (m: string) {
    if code == "auth/email-already-in-use" then InUseMessage
    else if code == "permission-denied" then PermissionMessage
    else if code == "invalid-argument" || Contains(Lower(message), "invalid-argument") then InvalidDataMessage
    else if message != "" then message
    else DefaultMessage
  }

  /** The message is never empty; known codes win over the text, and an unknown failure
      shows its own text unless that mentions an invalid argument. */
  lemma ErrorMessageSpec(code: string, message: string)
    ensures ErrorMessage(code, message) != ""
    ensures code == "auth/email-already-in-use" ==> ErrorMessage(code, message) == InUseMessage
    ensures code == "permission-denied" ==> ErrorMessage(code, message) == PermissionMessage
    ensures code == "invalid-argument" ==> ErrorMessage(code, message) == InvalidDataMessage
    ensures code != "auth/email-already-in-use" && code != "permission-denied" && Contains(Lower(message), "invalid-argument") ==>
      ErrorMessage(code, message) == InvalidDataMessage
    ensures code !in {"auth/email-already-in-use", "permission-denied", "invalid-argument"}
            && !Contains(Lower(message), "invalid-argument") ==>
      ErrorMessage(code, message) == (if message != "" then message else DefaultMessage)
  {
  }

  /** `saveClient`'s own errors carry no code, so their text is shown; a Firestore error
      whose text says INVALID-ARGUMENT in capitals maps to the invalid-data message. */
  lemma ErrorMessageExamples()
    ensures ErrorMessage("", "CPF inválido.") == "CPF inválido."
    ensures ErrorMessage("", "") == DefaultMessage
    ensures ErrorMessage("", "INVALID-ARGUMENT") == InvalidDataMessage
  {
    var up := "INVALID-ARGUMENT";
    assert Lower(up) == "invalid-argument";
    assert OccursAt(Lower(up), "invalid-argument", 0);
    var cpf := "CPF inválido.";
    assert |Lower(cpf)| == 13;
    assert !Contains(Lower(""), "invalid-argument");
  }
}
