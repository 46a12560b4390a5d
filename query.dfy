/**
 * The part of the document store's query semantics that `listRestaurants`
 * (functions/src/index.ts) relies on: equality filters, one `orderBy` with the implicit
 * tie-break on the document id, start and end cursors, and `limit`.
 *
 * Text fields are ordered by code point, which is the UTF-8 byte order the store uses.
 * Ties on the ordered field are broken by document id in the direction of that field.
 */
module RestaurantQueries {
  import opened Wrappers
  import opened Text
  import opened Documents

  /** One entry of a query result: the document id with the document's data. */
  datatype Item = Item(id: Id, doc: Restaurant)

  /** The two orders `listRestaurants` uses: by `nome` ascending (search) and by
      `createdAt` descending (browsing). */
  datatype Order = ByNomeAsc | ByCreatedAtDesc

  /** `x` comes strictly before `y` in the result order. */
  predicate Before(o: Order, x: Item, y: Item) {
    match o
    case ByNomeAsc =>
      Less(x.doc.nome, y.doc.nome) || (x.doc.nome == y.doc.nome && Less(x.id, y.id))
    case ByCreatedAtDesc =>
      x.doc.createdAt > y.doc.createdAt || (x.doc.createdAt == y.doc.createdAt && Less(y.id, x.id))
  }

  lemma BeforeIrreflexive(o: Order, x: Item)
    ensures !Before(o, x, x)
  {
    LessIrreflexive(x.doc.nome);
    LessIrreflexive(x.id);
  }

  lemma BeforeTransitive(o: Order, x: Item, y: Item, z: Item)
    requires Before(o, x, y) && Before(o, y, z)
    ensures Before(o, x, z)
  {
    match o
    case ByNomeAsc =>
      if Less(x.doc.nome, y.doc.nome) && Less(y.doc.nome, z.doc.nome) {
        LessTransitive(x.doc.nome, y.doc.nome, z.doc.nome);
      } else if x.doc.nome == y.doc.nome && y.doc.nome == z.doc.nome {
        LessTransitive(x.id, y.id, z.id);
      }
    case ByCreatedAtDesc =>
      if x.doc.createdAt == y.doc.createdAt && y.doc.createdAt == z.doc.createdAt {
        LessTransitive(z.id, y.id, x.id);
      }
  }

  lemma BeforeAsymmetric(o: Order, x: Item, y: Item)
    requires Before(o, x, y)
    ensures !Before(o, y, x)
  {
    if Before(o, y, x) {
      BeforeTransitive(o, x, y, x);
      BeforeIrreflexive(o, x);
    }
  }

  /** Items with different ids are always ordered one way or the other. */
  lemma BeforeTotal(o: Order, x: Item, y: Item)
    requires x.id != y.id
    ensures Before(o, x, y) || Before(o, y, x)
  {
    LessTotal(x.doc.nome, y.doc.nome);
    LessTotal(x.id, y.id);
  }

  /** The equality filters; `None` leaves a field unconstrained. */
  datatype Filters = Filters(uf: Option<string>, municipio: Option<string>, reserva: Option<bool>, fila: Option<bool>)

  /** Only active restaurants are listed, and every given filter must hold exactly. */
  predicate Matches(r: Restaurant, f: Filters) {
    && r.status == "ativo"
    && (f.uf.Some? ==> r.endereco.uf == f.uf)
    && (f.municipio.Some? ==> r.endereco.municipio == f.municipio)
    && (f.reserva.Some? ==> r.servicos.reserva == f.reserva)
    && (f.fila.Some? ==> r.servicos.fila == f.fila)
  }

  /** The start cursor: none, `startAt(nome)`, `startAfter(nome)` or `startAfter(document)`.
      A query has one start cursor: setting another replaces it. */
  datatype Start = FromFirst | AtNome(nome: string) | AfterNome(nome: string) | AfterItem(cursor: Item)

  datatype Query = Query(filters: Filters, order: Order, start: Start, endAtNome: Option<string>, limit: nat)

  /** Whether the query's filters and cursors let a document through (before `limit`). */
  predicate Admits(q: Query, it: Item) {
    && Matches(it.doc, q.filters)
    && (match q.start
        case FromFirst => true
        case AtNome(n) => AtMost(n, it.doc.nome)
        case AfterNome(n) => Less(n, it.doc.nome)
        case AfterItem(c) => Before(q.order, c, it))
    && (q.endAtNome.Some? ==> AtMost(it.doc.nome, q.endAtNome.value))
  }

  /** Every document of the collection that the query admits. */
  function Candidates(docs: map<Id, Restaurant>, q: Query): (c: set<Item>)
    ensures forall x :: x in c <==> x.id in docs && docs[x.id] == x.doc && Admits(q, x)
  {
    set id | id in docs && Admits(q, Item(id, docs[id])) :: Item(id, docs[id])
  }

  predicate UniqueIds(s: set<Item>) {
    forall x, y :: x in s && y in s && x.id == y.id ==> x == y
  }

  lemma CandidatesUniqueIds(docs: map<Id, Restaurant>, q: Query)
    ensures UniqueIds(Candidates(docs, q))
  {
  }

  predicate Sorted(o: Order, s: seq<Item>) {
    forall i, j :: 0 <= i < j < |s| ==> Before(o, s[i], s[j])
  }

  /** `items` is a result of a query whose admitted documents are `c`: at most `limit` of
      them, strictly in order, and every admitted document left out comes after all of
      them, which only happens when the page is full. */
  predicate IsPage(items: seq<Item>, c: set<Item>, o: Order, limit: nat) {
    && |items| <= limit
    && (forall i :: 0 <= i < |items| ==> items[i] in c)
    && Sorted(o, items)
    && (forall x :: x in c && x !in items ==>
          |items| == limit && forall i :: 0 <= i < |items| ==> Before(o, items[i], x))
  }

  /** The first element of a non-empty set in the result order. */
  method First(s: set<Item>, o: Order) returns (m: Item)
    requires s != {}
    requires UniqueIds(s)
    ensures m in s
    ensures forall x :: x in s && x != m ==> Before(o, m, x)
  {
    m :| m in s;
    var rest := s - {m};
    while rest != {}
      invariant rest <= s && m in s && m !in rest
      invariant forall x :: x in s && x !in rest && x != m ==> Before(o, m, x)
      decreases rest
    {
      var x :| x in rest;
      if Before(o, x, m) {
        forall y | y in s && y !in rest && y != x
          ensures Before(o, x, y)
        {
          if y != m {
            BeforeTransitive(o, x, m, y);
          }
        }
        m := x;
      } else {
        BeforeTotal(o, x, m);
      }
      rest := rest - {x};
    }
  }

  /** Runs a query against the collection `docs`. */
  method Run(docs: map<Id, Restaurant>, q: Query) returns (items: seq<Item>)
    ensures IsPage(items, Candidates(docs, q), q.order, q.limit)
  {
    var c := Candidates(docs, q);
    CandidatesUniqueIds(docs, q);
    var pending := c;
    items := [];
    while |items| < q.limit && pending != {}
      invariant pending <= c
      invariant forall x :: x in c ==> (x in pending <==> x !in items)
      invariant |items| <= q.limit
      invariant forall i :: 0 <= i < |items| ==> items[i] in c
      invariant Sorted(q.order, items)
      invariant forall i, x :: 0 <= i < |items| && x in pending ==> Before(q.order, items[i], x)
      decreases pending
    {
      var m := First(pending, q.order);
      items := items + [m];
      pending := pending - {m};
    }
  }

  // ---------------------------------------------------------------------------
  // Pages
  // ---------------------------------------------------------------------------

  /** Where two results of one query have agreed so far, the first is not ahead of the
      second at position `k`. */
  lemma NotAheadAt(a: seq<Item>, b: seq<Item>, c: set<Item>, o: Order, limit: nat, k: nat)
    requires IsPage(a, c, o, limit) && IsPage(b, c, o, limit)
    requires k < |a| && k < |b|
    requires forall j :: 0 <= j < k ==> a[j] == b[j]
    ensures !Before(o, a[k], b[k])
  {
    var x, y := a[k], b[k];
    if Before(o, x, y) {
      if x in b {
        var j :| 0 <= j < |b| && b[j] == x;
        if j < k {
          BeforeIrreflexive(o, x);
        } else {
          BeforeAsymmetric(o, x, y);
        }
      } else {
        BeforeAsymmetric(o, x, y);
      }
    }
  }

  lemma PagesAgreeAt(a: seq<Item>, b: seq<Item>, c: set<Item>, o: Order, limit: nat, k: nat)
    requires UniqueIds(c) && IsPage(a, c, o, limit) && IsPage(b, c, o, limit)
    requires k < |a| && k < |b|
    requires forall j :: 0 <= j < k ==> a[j] == b[j]
    ensures a[k] == b[k]
  {
    if a[k] != b[k] {
      BeforeTotal(o, a[k], b[k]);
      NotAheadAt(a, b, c, o, limit, k);
      NotAheadAt(b, a, c, o, limit, k);
    }
  }

  /** A query's result is determined by the admitted documents: two results of the same
      query over the same collection are the same sequence. */
  lemma PageUnique(a: seq<Item>, b: seq<Item>, c: set<Item>, o: Order, limit: nat)
    requires UniqueIds(c) && IsPage(a, c, o, limit) && IsPage(b, c, o, limit)
    ensures a == b
  {
    var n := if |a| < |b| then |a| else |b|;
    var k := 0;
    while k < n
      invariant k <= n
      invariant forall j :: 0 <= j < k ==> a[j] == b[j]
    {
      PagesAgreeAt(a, b, c, o, limit, k);
      k := k + 1;
    }
    if |a| < |b| {
      var x := b[|a|];
      if x in a {
        var j :| 0 <= j < |a| && a[j] == x;
        BeforeIrreflexive(o, x);
      }
    } else if |b| < |a| {
      var x := a[|b|];
      if x in b {
        var j :| 0 <= j < |b| && b[j] == x;
        BeforeIrreflexive(o, x);
      }
    }
  }

  /** Continuing after the last item of a full page by that item's document: the next query
      admits exactly the documents the first one admitted and did not return. Repeating
      this visits each admitted document once, in order. */
  lemma NextPageAfterLastItem(docs: map<Id, Restaurant>, q: Query, page: seq<Item>)
    requires q.start.FromFirst? || q.start.AfterItem?
    requires IsPage(page, Candidates(docs, q), q.order, q.limit)
    requires page != [] && |page| == q.limit
    ensures Candidates(docs, q.(start := AfterItem(page[|page| - 1])))
            == Candidates(docs, q) - (set i | 0 <= i < |page| :: page[i])
  {
    var last := page[|page| - 1];
    var q2 := q.(start := AfterItem(last));
    var before := Candidates(docs, q);
    var shown := set i | 0 <= i < |page| :: page[i];
    assert last in before;
    forall x | x in Candidates(docs, q2)
      ensures x in before && x !in shown
    {
      if q.start.AfterItem? {
        BeforeTransitive(q.order, q.start.cursor, last, x);
      }
      if x in shown {
        var i :| 0 <= i < |page| && page[i] == x;
        if i == |page| - 1 {
          BeforeIrreflexive(q.order, x);
        } else {
          BeforeAsymmetric(q.order, x, last);
        }
      }
    }
    forall x | x in before && x !in shown
      ensures x in Candidates(docs, q2)
    {
      assert x !in page;
    }
  }

  // ---------------------------------------------------------------------------
  // The prefix range of the search mode
  // ---------------------------------------------------------------------------

  /** The highest character of the Basic Multilingual Plane's private use area, which
      the search appends to the text to form the end of its range. */
  const RangeTop: char := '\U{F8FF}'

  predicate IsPrefix(p: string, s: string) { |p| <= |s| && s[..|p|] == p }

  /** Less with a common first character is Less of the rest. */
  lemma LessCons(c: char, a: string, b: string)
    ensures Less([c] + a, [c] + b) == Less(a, b)
  {
    assert ([c] + a)[1..] == a;
    assert ([c] + b)[1..] == b;
  }

  /** The range of `startAt(t).endAt(t + "\uf8ff")` holds exactly the
      names that extend `t`, except those whose next character lies above U+F8FF, and
      those that continue past a U+F8FF right after `t`. */
  lemma {:induction false} SearchRangeIsPrefixMatch(t: string, n: string)
    ensures AtMost(t, n) && AtMost(n, t + [RangeTop])
            <==> IsPrefix(t, n) && (|n| == |t| || n[|t|] < RangeTop || n == t + [RangeTop])
  {
    if t == [] {
      assert t + [RangeTop] == [RangeTop];
      if n != [] && n[0] == RangeTop && n != [RangeTop] {
        assert n[1..] != [];
        assert !Less(n, [RangeTop]);
      }
    } else if n == [] {
      assert Less(n, t);
      LessAsymmetric(n, t);
    } else if n[0] == t[0] {
      SearchRangeIsPrefixMatch(t[1..], n[1..]);
      assert n == [n[0]] + n[1..];
      assert t == [t[0]] + t[1..];
      assert t + [RangeTop] == [t[0]] + (t[1..] + [RangeTop]);
      LessCons(t[0], t[1..], n[1..]);
      LessCons(t[0], n[1..], t[1..] + [RangeTop]);
      if IsPrefix(t, n) {
        assert n[1..][..|t| - 1] == n[..|t|][1..];
      }
      if IsPrefix(t[1..], n[1..]) {
        assert n[..|t|] == [n[0]] + n[1..][..|t| - 1];
      }
    } else if n[0] < t[0] {
      assert Less(n, t);
      LessAsymmetric(n, t);
      assert |n| < |t| || n[..|t|][0] == n[0];
    } else {
      assert (t + [RangeTop])[0] == t[0];
      assert Less(t + [RangeTop], n);
      LessAsymmetric(t + [RangeTop], n);
      assert |n| < |t| || n[..|t|][0] == n[0];
    }
  }
}
