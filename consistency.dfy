/**
 * How the pieces agree and where they do not: the registration screens check some fields
 * more strictly than the backend handlers that receive the same fields, and the name cursor
 * of the search listing can skip restaurants whose names tie.
 */
module Consistency {
  import opened Wrappers
  import opened Text
  import opened Documents
  import opened RestaurantQueries
  import opened BrDocuments
  import opened OperationalForm
  import CloudFunctions

  // ---------------------------------------------------------------------------
  // Opening hours: screen check against backend check
  // ---------------------------------------------------------------------------

  /** Every time the operational screen accepts is also accepted by the backend, but the backend
      lets through times the screen refuses (its check is on the shape only). */
  lemma ScreenTimesAreBackendTimes(h: string)
    ensures ValidarHorario(h) ==> CloudFunctions.IsTime(h)
    ensures CloudFunctions.IsTime("24:00") && !ValidarHorario("24:00")
    ensures CloudFunctions.IsTime("99:99") && !ValidarHorario("99:99")
    ensures CloudFunctions.IsTime("12:60") && !ValidarHorario("12:60")
  {
    assert "24:00"[0] == '2' && "24:00"[1] == '4';
    assert "99:99"[0] == '9';
    assert "12:60"[3] == '6';
  }

  // ---------------------------------------------------------------------------
  // CNPJ: length check against check digits
  // ---------------------------------------------------------------------------

  /** `createRestaurant` checks only that the CNPJ has 14 digits: a number whose check digit is
      wrong, which `isValidCNPJ` refuses, is stored. */
  lemma CreateAcceptsWrongCheckDigit(b: CloudFunctions.RestaurantInput)
    requires b.cnpj == "11222333000182"
    requires b.nome != "" && b.uf != "" && b.municipio != ""
    requires CloudFunctions.IsTime(b.horarioAbertura) && CloudFunctions.IsTime(b.horarioFechamento)
    requires b.precoMinimo <= b.precoMaximo
    ensures CloudFunctions.CreateRestaurantCheck(b) == None
    ensures !CnpjValid(b.cnpj)
  {
    OnlyDigitsOfDigits(b.cnpj);
    AlteredCnpjRejected(b.cnpj);
  }

  // ---------------------------------------------------------------------------
  // Search pagination by name
  // ---------------------------------------------------------------------------

  /** The next search page starts strictly after the last name shown. When that page ends with
      `x` and another restaurant `y` with the same name did not fit, the page is full (so it
      announces more), yet `y` is not admitted by the next page's query either: following the
      cursors never lists `y`. */
  lemma NameCursorSkipsTies(rs: map<Id, Restaurant>, f: Filters, t: string, limit: nat,
                            items: seq<Item>, x: Item, y: Item)
    requires t != ""
    requires IsPage(items, Candidates(rs, CloudFunctions.SearchQuery(f, t, "", limit)), ByNomeAsc, limit)
    requires items != [] && items[|items| - 1] == x
    requires y in Candidates(rs, CloudFunctions.SearchQuery(f, t, "", limit)) && y !in items
    requires y.doc.nome == x.doc.nome
    ensures |items| == limit
    ensures x.doc.nome != ""
    ensures y !in Candidates(rs, CloudFunctions.SearchQuery(f, t, x.doc.nome, limit))
  {
    CloudFunctions.SearchNamesNonEmpty(rs, f, t, "", limit, x);
    LessIrreflexive(x.doc.nome);
  }

  /** Two active restaurants named "Pizza", with ids "a" and "b", and a page size of one:
      both are admitted by the first query, and the query after the cursor "Pizza" admits
      neither, so one of them is never listed. */
  lemma TiedPizzasScenario(p: Restaurant, f: Filters)
    requires p.nome == "Pizza" && Matches(p, f)
    ensures var rs := map["a" := p, "b" := p];
            && Item("a", p) in Candidates(rs, CloudFunctions.SearchQuery(f, "Pizza", "", 1))
            && Item("b", p) in Candidates(rs, CloudFunctions.SearchQuery(f, "Pizza", "", 1))
            && Candidates(rs, CloudFunctions.SearchQuery(f, "Pizza", "Pizza", 1)) == {}
  {
    var rs := map["a" := p, "b" := p];
    var top := "Pizza" + [RangeTop];
    LessExtension("Pizza", [RangeTop]);
    assert AtMost("Pizza", top);
    LessIrreflexive("Pizza");
    assert Admits(CloudFunctions.SearchQuery(f, "Pizza", "", 1), Item("a", p));
    assert Admits(CloudFunctions.SearchQuery(f, "Pizza", "", 1), Item("b", p));
  }
}
