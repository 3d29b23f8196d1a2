/** The bounded inventory of installed applications: entries of two registry views are
    normalised, deduplicated and sorted. */
module Inventory {
  import opened Common

  datatype App = App(name: string, version: string, publisher: string, date: string, size: Option<nat>)

  /** An uninstall key and what it describes. */
  datatype Entry = Entry(key: string, app: App)

  /** What makes two entries the same product: the key up to letter case, and every
      normalised field. */
  datatype Identity = Identity(key: string, app: App)

  /** One registry view: its entries in enumeration order, and whether reading it fails
      after them. */
  datatype View = View(entries: seq<Entry>, fails: bool)

  datatype Error = TooManyEntries | TooManyApps | Unreadable | Cancelled

  datatype Platform = Platform(lower: string -> string, json: App -> string, space: char -> bool)

  /** JSON text determines the application and escapes control characters. */
  ghost predicate Lawful(p: Platform) {
    && (forall a, b :: p.json(a) == p.json(b) ==> a == b)
    && (forall a :: '\0' !in p.json(a))
  }

  const MAX_ENTRIES := 10000
  const MAX_APPS := 2000
  const MAX_NAME := 512
  const MAX_VERSION := 256
  const MAX_PUBLISHER := 512
  const MAX_DATE := 32
  const MAX_SIZE_KB := 0xffff_ffff

  // -------------------------------------------------------------- normalisation

  function TrimLeft(p: Platform, s: string): (r: string)
    ensures |r| <= |s|
  {
    if s != "" && p.space(s[0]) then TrimLeft(p, s[1..]) else s
  }

  function TrimRight(p: Platform, s: string): (r: string)
    ensures |r| <= |s|
  {
    if s != "" && p.space(s[|s| - 1]) then TrimRight(p, s[..|s| - 1]) else s
  }

  function Bounded(p: Platform, s: string, n: nat): string {
    var r := TrimRight(p, TrimLeft(p, s));
    if |r| > n then r[..n] else r
  }

  function Normalised(p: Platform, a: App): App {
    App(Bounded(p, a.name, MAX_NAME),
        Bounded(p, a.version, MAX_VERSION),
        Bounded(p, a.publisher, MAX_PUBLISHER),
        Bounded(p, a.date, MAX_DATE),
        if a.size.Some? && a.size.value > MAX_SIZE_KB then None else a.size)
  }

  predicate Named(p: Platform, e: Entry) {
    Normalised(p, e.app).name != ""
  }

  function IdentityOf(p: Platform, e: Entry): Identity {
    Identity(p.lower(e.key), Normalised(p, e.app))
  }

  /** The key of the table of entries already seen. */
  function KeyText(p: Platform, d: Identity): string {
    d.key + "\0" + p.json(d.app)
  }

  /** The products among some entries, whatever their order. */
  ghost function Identities(p: Platform, entries: seq<Entry>): set<Identity> {
    set e | e in entries && Named(p, e) :: IdentityOf(p, e)
  }

  function Apps(order: seq<Identity>): seq<App> {
    seq(|order|, i requires 0 <= i < |order| => order[i].app)
  }

  // -------------------------------------------------------------------- ordering

  /** Go's order on strings. */
  predicate Less(a: string, b: string) {
    b != "" && (a == "" || a[0] < b[0] || (a[0] == b[0] && Less(a[1..], b[1..])))
  }

  predicate AppLess(p: Platform, a: App, b: App) {
    var x, y := p.lower(a.name), p.lower(b.name);
    if x != y then Less(x, y) else Less(p.json(a), p.json(b))
  }

  /** Sorted, as any sorting algorithm leaves it. */
  ghost predicate Arranged(p: Platform, apps: seq<App>) {
    forall i, j :: 0 <= i < j < |apps| ==> !AppLess(p, apps[j], apps[i])
  }

  lemma {:induction false} LessTotal(a: string, b: string)
    ensures a == b || Less(a, b) || Less(b, a)
  {
    if a != "" && b != "" && a[0] == b[0] {
      LessTotal(a[1..], b[1..]);
      if a[1..] == b[1..] {
        assert a == [a[0]] + a[1..] && b == [b[0]] + b[1..];
      }
    }
  }

  lemma {:induction false} LessIrreflexive(a: string)
    ensures !Less(a, a)
  {
    if a != "" {
      LessIrreflexive(a[1..]);
    }
  }

  lemma {:induction false} LessTransitive(a: string, b: string, c: string)
    requires Less(a, b) && Less(b, c)
    ensures Less(a, c)
  {
    if a != "" && a[0] == b[0] && b[0] == c[0] {
      LessTransitive(a[1..], b[1..], c[1..]);
    }
  }

  /** Neither comes first only for identical applications: ties cannot be told apart. */
  lemma TiesAreIdentical(p: Platform, a: App, b: App)
    requires Lawful(p) && !AppLess(p, a, b) && !AppLess(p, b, a)
    ensures a == b
  {
    LessTotal(p.lower(a.name), p.lower(b.name));
    LessTotal(p.json(a), p.json(b));
  }

  lemma AppLessTransitive(p: Platform, a: App, b: App, c: App)
    requires AppLess(p, a, b) && AppLess(p, b, c)
    ensures AppLess(p, a, c)
  {
    var x, y, z := p.lower(a.name), p.lower(b.name), p.lower(c.name);
    if x != y && y != z {
      LessTransitive(x, y, z);
      if x == z {
        LessIrreflexive(x);
      }
    } else if x == y && y == z {
      LessTransitive(p.json(a), p.json(b), p.json(c));
    }
    hide Less;
  }

  /** However it is sorted, a collection has one sorted arrangement. */
  lemma {:induction false} UniqueArrangement(p: Platform, s: seq<App>, t: seq<App>)
    requires Lawful(p) && Arranged(p, s) && Arranged(p, t) && multiset(s) == multiset(t)
    ensures s == t
  {
    assert |s| == |multiset(s)| == |multiset(t)| == |t|;
    if s != [] {
      SameFirst(p, s, t);
      hide Lawful, AppLess;
      assert s == [s[0]] + s[1..] && t == [t[0]] + t[1..];
      assert multiset(s[1..]) == multiset(s) - multiset{s[0]};
      assert multiset(t[1..]) == multiset(t) - multiset{t[0]};
      UniqueArrangement(p, s[1..], t[1..]);
    }
  }

  lemma SameFirst(p: Platform, s: seq<App>, t: seq<App>)
    requires Lawful(p) && Arranged(p, s) && Arranged(p, t) && multiset(s) == multiset(t)
    requires s != [] && t != []
    ensures s[0] == t[0]
  {
    assert t[0] in multiset(s) && s[0] in multiset(t);
    var i :| 0 <= i < |s| && s[i] == t[0];
    var j :| 0 <= j < |t| && t[j] == s[0];
    if i != 0 && j != 0 {
      TiesAreIdentical(p, s[0], t[0]);
    }
  }

  // --------------------------------------------------------------------- sorting

  /** Puts one application in its place. */
  method Insert(p: Platform, sorted: seq<App>, a: App) returns (r: seq<App>)
    requires Arranged(p, sorted)
    ensures Arranged(p, r) && multiset(r) == multiset(sorted) + multiset{a}
  {
    var k := |sorted|;
    while k > 0 && AppLess(p, a, sorted[k - 1])
      invariant 0 <= k <= |sorted|
      invariant forall j :: k <= j < |sorted| ==> AppLess(p, a, sorted[j])
    {
      k := k - 1;
    }
    r := sorted[..k] + [a] + sorted[k..];
    assert sorted == sorted[..k] + sorted[k..];
    InsertArranged(p, sorted, a, k);
  }

  lemma InsertArranged(p: Platform, sorted: seq<App>, a: App, k: nat)
    requires Arranged(p, sorted) && k <= |sorted|
    requires k > 0 ==> !AppLess(p, a, sorted[k - 1])
    requires forall j :: k <= j < |sorted| ==> AppLess(p, a, sorted[j])
    ensures Arranged(p, sorted[..k] + [a] + sorted[k..])
  {
    var r := sorted[..k] + [a] + sorted[k..];
    forall i, j | 0 <= i < j < |r| ensures !AppLess(p, r[j], r[i]) {
      if i == k {
        if AppLess(p, r[j], a) {
          AppLessTransitive(p, a, r[j], a);
          NotLessThanItself(p, a);
        }
      } else if j == k {
        if AppLess(p, a, sorted[i]) && i < k - 1 {
          NoneBefore(p, sorted, a, i, k);
        }
      } else {
        var i', j' := if i < k then i else i - 1, if j < k then j else j - 1;
        assert r[i] == sorted[i'] && r[j] == sorted[j'];
      }
    }
  }

  lemma NotLessThanItself(p: Platform, a: App)
    ensures !AppLess(p, a, a)
  {
    LessIrreflexive(p.json(a));
  }

  lemma NoneBefore(p: Platform, sorted: seq<App>, a: App, i: nat, k: nat)
    requires Arranged(p, sorted) && i < k - 1 && k <= |sorted|
    requires !AppLess(p, a, sorted[k - 1])
    ensures !AppLess(p, a, sorted[i])
  {
    if AppLess(p, a, sorted[i]) {
      var b, c := sorted[i], sorted[k - 1];
      assert !AppLess(p, c, b);
      LessTotal(p.lower(c.name), p.lower(b.name));
      LessTotal(p.json(c), p.json(b));
      if AppLess(p, b, c) {
        AppLessTransitive(p, a, b, c);
      }
    }
  }

  method Sort(p: Platform, apps: seq<App>) returns (r: seq<App>)
    ensures Arranged(p, r) && multiset(r) == multiset(apps)
  {
    r := [];
    for i := 0 to |apps|
      invariant Arranged(p, r) && multiset(r) == multiset(apps[..i])
    {
      assert apps[..i + 1] == apps[..i] + [apps[i]];
      r := Insert(p, r, apps[i]);
    }
    assert apps[..|apps|] == apps;
  }

  // ------------------------------------------------------------------ collection

  predicate WithinLimits(entries: nat, products: nat) {
    entries <= MAX_ENTRIES && products <= MAX_APPS
  }

  /** What the inventory of some entries is: sorted, with exactly one application for each
      product. */
  ghost predicate IsInventory(p: Platform, entries: seq<Entry>, apps: seq<App>) {
    Arranged(p, apps) && exists order :: Lists(p, entries, order) && multiset(Apps(order)) == multiset(apps)
  }

  /** The products in some order, each once. */
  ghost predicate Lists(p: Platform, entries: seq<Entry>, order: seq<Identity>) {
    Distinct(order) && Elements(order) == Identities(p, entries)
  }

  /** The table of key texts and the list of applications stand for the same products. */
  ghost predicate Consistent(p: Platform, order: seq<Identity>, seen: set<string>, apps: seq<App>) {
    && apps == Apps(order)
    && seen == Texts(p, order)
  }

  ghost function Texts(p: Platform, order: seq<Identity>): set<string> {
    set d | d in order :: KeyText(p, d)
  }

  /** The context is still alive after this many looks at it. */
  predicate Outlives(lifetime: Option<nat>, looks: nat) {
    lifetime.None? || looks <= lifetime.value
  }

  class Collector {
    const p: Platform
    /** How many looks at the context find it alive, if it is ever cancelled. */
    const lifetime: Option<nat>
    var looks: nat
    var entries: nat
    var seen: set<string>
    var apps: seq<App>
    ghost var added: seq<Entry>
    ghost var order: seq<Identity>

    ghost predicate Valid()
      reads this
    {
      && Lawful(p)
      && entries == |added|
      && Lists(p, added, order)
      && Consistent(p, order, seen, apps)
      && WithinLimits(entries, |order|)
    }

    constructor (p: Platform, lifetime: Option<nat>)
      requires Lawful(p)
      ensures Valid() && added == [] && this.p == p && this.lifetime == lifetime && looks == 0
    {
      this.p, this.lifetime, looks := p, lifetime, 0;
      entries, seen, apps := 0, {}, [];
      added, order := [], [];
    }

    /** A look at the context. */
    method Alive() returns (alive: bool)
      modifies `looks
      ensures looks == old(looks) + 1
      ensures alive <==> Outlives(lifetime, looks)
    {
      alive := lifetime.None? || looks < lifetime.value;
      looks := looks + 1;
    }

    /** One entry, as the view reader hands it over. */
    method Add(e: Entry) returns (error: Option<Error>)
      requires Valid()
      modifies this
      ensures looks == old(looks) + 1
      ensures error == Some(Cancelled) <==> !Outlives(lifetime, looks)
      ensures Outlives(lifetime, looks) ==>
                (error.None? <==> WithinLimits(|old(added)| + 1, |Identities(p, old(added) + [e])|))
      ensures Outlives(lifetime, looks) ==> (error == Some(TooManyEntries) <==> |old(added)| >= MAX_ENTRIES)
      ensures error.None? ==> Valid() && added == old(added) + [e]
    {
      hide Normalised, Lawful, Lists, Identities, Texts, KeyText;
      var alive := Alive();
      if !alive {
        return Some(Cancelled);
      }
      entries := entries + 1;
      if entries > MAX_ENTRIES {
        return Some(TooManyEntries);
      }
      var d := IdentityOf(p, e);
      var text := KeyText(p, d);
      if d.app.name == "" || text in seen {
        AddNothing(p, added, order, seen, e);
        added := added + [e];
        return None;
      }
      seen := seen + {text};
      AddProduct(p, added, order, old(seen), e);
      if |apps| >= MAX_APPS {
        return Some(TooManyApps);
      }
      apps := apps + [d.app];
      assert Apps(order + [d]) == apps;
      order := order + [d];
      added := added + [e];
      return None;
    }
  }

  lemma NothingNew(p: Platform, entries: seq<Entry>, e: Entry)
    requires Named(p, e) ==> IdentityOf(p, e) in Identities(p, entries)
    ensures Identities(p, entries + [e]) == Identities(p, entries)
  {
    IdentitiesAdd(p, entries, e);
    hide *;
  }

  /** An entry without a name, or one already seen, changes no products. */
  lemma AddNothing(p: Platform, added: seq<Entry>, order: seq<Identity>, seen: set<string>, e: Entry)
    requires Lawful(p) && Lists(p, added, order) && seen == Texts(p, order)
    requires IdentityOf(p, e).app.name == "" || KeyText(p, IdentityOf(p, e)) in seen
    ensures Lists(p, added + [e], order) && |Identities(p, added + [e])| == |order|
  {
    SeenExactly(p, order, IdentityOf(p, e));
    DistinctCardinality(order);
    assert Named(p, e) ==> IdentityOf(p, e) in Elements(order) by {
      hide Lawful, Normalised, KeyText, Texts, Lists, Distinct, Identities;
    }
    hide Lawful, Normalised, KeyText, Texts, Distinct, Elements, Identities, Named, IdentityOf;
    NothingNew(p, added, e);
  }

  lemma AddProduct(p: Platform, added: seq<Entry>, order: seq<Identity>, seen: set<string>, e: Entry)
    requires Lawful(p) && Lists(p, added, order) && seen == Texts(p, order)
    requires IdentityOf(p, e).app.name != "" && KeyText(p, IdentityOf(p, e)) !in seen
    ensures
      var longer := order + [IdentityOf(p, e)];
      && Lists(p, added + [e], longer) && |Identities(p, added + [e])| == |order| + 1
      && Texts(p, longer) == seen + {KeyText(p, IdentityOf(p, e))}
  {
    var d := IdentityOf(p, e);
    SeenExactly(p, order, d);
    IdentitiesAdd(p, added, e);
    hide Lawful, Identities, Normalised, KeyText, Distinct, Elements;
    TextsGrow(p, order, d);
    hide Texts;
    AppendDistinct(order, d);
  }

  lemma TextsGrow(p: Platform, order: seq<Identity>, d: Identity)
    ensures Texts(p, order + [d]) == Texts(p, order) + {KeyText(p, d)}
  {
    hide KeyText;
  }

  lemma SeenExactly(p: Platform, order: seq<Identity>, d: Identity)
    requires Lawful(p)
    ensures KeyText(p, d) in Texts(p, order) <==> d in order
  {
    if KeyText(p, d) in Texts(p, order) {
      var other :| other in order && KeyText(p, other) == KeyText(p, d);
      KeyTextInjective(p, other, d);
    }
  }

  lemma IdentitiesAdd(p: Platform, entries: seq<Entry>, e: Entry)
    ensures Identities(p, entries + [e]) ==
      Identities(p, entries) + (if Named(p, e) then {IdentityOf(p, e)} else {})
  {
    hide Normalised, Bounded;
  }

  lemma AppendDistinct(order: seq<Identity>, d: Identity)
    requires Distinct(order) && d !in order
    ensures Distinct(order + [d]) && Elements(order + [d]) == Elements(order) + {d}
    ensures |Elements(order + [d])| == |order| + 1
  {
    DistinctCardinality(order + [d]);
  }

  /** Two products never share a key text: the separator is the last zero in it. */
  lemma KeyTextInjective(p: Platform, a: Identity, b: Identity)
    requires Lawful(p) && KeyText(p, a) == KeyText(p, b)
    ensures a == b
  {
    var x, y := p.json(a.app), p.json(b.app);
    var text := KeyText(p, a);
    assert text[|a.key|] == '\0' && text[|b.key|] == '\0';
    assert forall i :: |a.key| < i < |text| ==> text[i] == x[i - |a.key| - 1];
    assert forall i :: |b.key| < i < |text| ==> text[i] == y[i - |b.key| - 1];
    assert text[..|a.key|] == a.key && text[..|b.key|] == b.key;
    assert text[|a.key| + 1..] == x && text[|b.key| + 1..] == y;
  }

  lemma LimitsHold(c: Collector, all: seq<Entry>)
    requires c.Valid() && c.added == all
    ensures WithinLimits(|all|, |Identities(c.p, all)|)
  {
    DistinctCardinality(c.order);
  }

  lemma LimitsOnlyGrow(p: Platform, some: seq<Entry>, all: seq<Entry>)
    requires some <= all && !WithinLimits(|some|, |Identities(p, some)|)
    ensures !WithinLimits(|all|, |Identities(p, all)|)
  {
    hide Named, IdentityOf;
    assert forall e :: e in some ==> e in all;
    SubsetCardinality(Identities(p, some), Identities(p, all));
  }

  /** Hands over one view's entries until one is refused. */
  method Read(c: Collector, entries: seq<Entry>, ghost all: seq<Entry>) returns (error: Option<Error>)
    requires c.Valid() && c.added + entries <= all
    modifies c
    ensures error.None? ==>
              && c.Valid() && c.added == old(c.added) + entries && c.looks == old(c.looks) + |entries|
              && (entries != [] ==> Outlives(c.lifetime, c.looks))
    ensures error.Some? ==>
              || !WithinLimits(|all|, |Identities(c.p, all)|)
              || !Outlives(c.lifetime, old(c.looks) + |entries|)
  {
    hide Identities, Distinct, Elements;
    ghost var before := c.added;
    assert before + entries[..0] == before;
    for i := 0 to |entries|
      invariant c.Valid() && c.added == before + entries[..i] && c.looks == old(c.looks) + i
      invariant i > 0 ==> Outlives(c.lifetime, c.looks)
    {
      assert before + entries[..i + 1] == c.added + [entries[i]];
      var next := c.Add(entries[i]);
      if next.Some? {
        assert before + entries[..i + 1] <= all;
        if Outlives(c.lifetime, c.looks) {
          LimitsOnlyGrow(c.p, before + entries[..i + 1], all);
        }
        return next;
      }
    }
    assert entries[..|entries|] == entries;
    return None;
  }

  /** What collecting two views may return: the inventory of their entries, exactly when
      both can be read, the limits hold, and the context outlives the three looks around
      the views and the one at each entry. */
  ghost predicate Collected(p: Platform, first: View, second: View, lifetime: Option<nat>,
                            r: Result<seq<App>, Error>) {
    var all := first.entries + second.entries;
    && (r.Ok? <==> !first.fails && !second.fails && WithinLimits(|all|, |Identities(p, all)|)
                   && Outlives(lifetime, |all| + 3))
    && (r.Ok? ==> IsInventory(p, all, r.value))
  }

  /** The inventory of both views, the 64-bit one first. */
  method CollectWith(p: Platform, first: View, second: View, lifetime: Option<nat>)
    returns (r: Result<seq<App>, Error>)
    requires Lawful(p)
    ensures Collected(p, first, second, lifetime, r)
  {
    hide WithinLimits, Lawful, Identities;
    var c := new Collector(p, lifetime);
    ghost var all := first.entries + second.entries;
    var alive := c.Alive();
    if !alive {
      return Err(Cancelled);
    }
    var error := Read(c, first.entries, all);
    if error.Some? {
      return Err(error.value);
    }
    if first.fails {
      return Err(Unreadable);
    }
    assert [] + first.entries == first.entries;
    assert first.entries + second.entries == all;
    alive := c.Alive();
    if !alive {
      return Err(Cancelled);
    }
    error := Read(c, second.entries, all);
    if error.Some? {
      return Err(error.value);
    }
    if second.fails {
      return Err(Unreadable);
    }
    var apps := Sort(p, c.apps);
    assert Lists(p, all, c.order);
    LimitsHold(c, all);
    alive := c.Alive();
    return if alive then Ok(apps) else Err(Cancelled);
  }

  // ------------------------------------------------------------------- theorems

  lemma {:induction false} DistinctMultiset(a: seq<Identity>, d: Identity)
    requires Distinct(a)
    ensures multiset(a)[d] == if d in a then 1 else 0
  {
    if a != [] {
      var init, last := a[..|a| - 1], a[|a| - 1];
      assert a == init + [last];
      DistinctMultiset(init, d);
      assert last !in init;
    }
  }

  lemma SameProductsSameMultiset(a: seq<Identity>, b: seq<Identity>)
    requires Distinct(a) && Distinct(b) && Elements(a) == Elements(b)
    ensures multiset(a) == multiset(b)
  {
    forall d ensures multiset(a)[d] == multiset(b)[d] {
      DistinctMultiset(a, d);
      DistinctMultiset(b, d);
      assert d in Elements(a) <==> d in Elements(b);
    }
  }

  lemma {:induction false} AppsOfPermutation(a: seq<Identity>, b: seq<Identity>)
    requires multiset(a) == multiset(b)
    ensures multiset(Apps(a)) == multiset(Apps(b))
  {
    assert |a| == |multiset(a)| == |multiset(b)| == |b|;
    if a != [] {
      assert a[0] in multiset(b);
      var j :| 0 <= j < |b| && b[j] == a[0];
      RemoveAt(a, 0);
      RemoveAt(b, j);
      hide *;
      var rest, others := a[..0] + a[1..], b[..j] + b[j + 1..];
      Cancel(multiset(rest), multiset(others), a[0]);
      AppsOfPermutation(rest, others);
    }
  }

  lemma Cancel<T>(a: multiset<T>, b: multiset<T>, x: T)
    requires a + multiset{x} == b + multiset{x}
    ensures a == b
  {
    assert a == (a + multiset{x}) - multiset{x} == b;
  }

  lemma RemoveAt(s: seq<Identity>, j: nat)
    requires j < |s|
    ensures multiset(s) == multiset(s[..j] + s[j + 1..]) + multiset{s[j]}
    ensures multiset(Apps(s)) == multiset(Apps(s[..j] + s[j + 1..])) + multiset{s[j].app}
  {
    AppsSplit(s[..j], s[j], s[j + 1..]);
    hide Apps;
    assert s == s[..j] + [s[j]] + s[j + 1..];
  }

  lemma AppsSplit(before: seq<Identity>, d: Identity, after: seq<Identity>)
    ensures multiset(Apps(before + [d] + after)) == multiset(Apps(before + after)) + multiset{d.app}
  {
    assert Apps(before + [d] + after) == Apps(before) + [d.app] + Apps(after);
    assert Apps(before + after) == Apps(before) + Apps(after);
  }

  /** The inventory is canonical: it depends only on which products there are. */
  lemma InventoryDetermined(p: Platform, e: seq<Entry>, f: seq<Entry>, a: seq<App>, b: seq<App>)
    requires Lawful(p) && Identities(p, e) == Identities(p, f)
    requires IsInventory(p, e, a) && IsInventory(p, f, b)
    ensures a == b
  {
    hide Lawful, Arranged, Identities;
    var c :| Lists(p, e, c) && multiset(Apps(c)) == multiset(a);
    var d :| Lists(p, f, d) && multiset(Apps(d)) == multiset(b);
    SameProductsSameMultiset(c, d);
    AppsOfPermutation(c, d);
    UniqueArrangement(p, a, b);
  }

  /** Neither the inventory nor the fact of an error depends on the order of entries or on
      which view shows them. */
  lemma OrderDoesNotMatter(p: Platform, e: seq<Entry>, f: seq<Entry>)
    requires multiset(e) == multiset(f)
    ensures Identities(p, e) == Identities(p, f)
    ensures WithinLimits(|e|, |Identities(p, e)|) == WithinLimits(|f|, |Identities(p, f)|)
  {
    hide Named, IdentityOf;
    assert |e| == |multiset(e)| == |multiset(f)| == |f|;
    assert forall x :: x in e <==> x in multiset(e);
    assert forall x :: x in f <==> x in multiset(f);
  }

  /** The inventory is canonical. Whatever the order of the entries and whichever view
      shows them, two collections that nothing outside cuts short end alike: both are
      errors, or both are the same list. */
  lemma CollectionIsCanonical(p: Platform, first: View, second: View, third: View, fourth: View,
                              a: Result<seq<App>, Error>, b: Result<seq<App>, Error>)
    requires Lawful(p)
    requires multiset(first.entries + second.entries) == multiset(third.entries + fourth.entries)
    requires !first.fails && !second.fails && !third.fails && !fourth.fails
    requires Collected(p, first, second, None, a) && Collected(p, third, fourth, None, b)
    ensures (a.Err? && b.Err?) || a == b
  {
    var e, f := first.entries + second.entries, third.entries + fourth.entries;
    OrderDoesNotMatter(p, e, f);
    if a.Ok? {
      InventoryDetermined(p, e, f, a.value, b.value);
    }
  }

  /** A second view that mirrors the first adds nothing. */
  lemma MirroredViewAddsNothing(p: Platform, e: seq<Entry>, a: seq<App>, b: seq<App>)
    requires Lawful(p) && IsInventory(p, e, a) && IsInventory(p, e + e, b)
    ensures a == b
  {
    assert Identities(p, e + e) == Identities(p, e) by {
      hide Named, IdentityOf;
    }
    InventoryDetermined(p, e, e + e, a, b);
  }

  /** One application per product, none without a name, every field within its bound. */
  lemma InventoryBounded(p: Platform, e: seq<Entry>, a: seq<App>)
    requires IsInventory(p, e, a)
    ensures |a| == |Identities(p, e)|
    ensures forall i :: 0 <= i < |a| ==> InBounds(a[i])
  {
    var order :| Lists(p, e, order) && multiset(Apps(order)) == multiset(a);
    DistinctCardinality(order);
    hide Arranged, Distinct, Identities, Named, Normalised;
    assert |Apps(order)| == |multiset(Apps(order))| == |multiset(a)| == |a|;
    forall i | 0 <= i < |a| ensures FromEntry(p, e, a[i]) {
      assert a[i] in multiset(Apps(order));
      var j :| 0 <= j < |order| && Apps(order)[j] == a[i];
      assert order[j] in Elements(order);
      ProductFromEntry(p, e, order[j]);
    }
    forall i | 0 <= i < |a| ensures InBounds(a[i]) {
      assert FromEntry(p, e, a[i]);
      EntryInBounds(p, e, a[i]);
    }
  }

  predicate InBounds(a: App) {
    && 0 < |a.name| <= MAX_NAME && |a.version| <= MAX_VERSION && |a.publisher| <= MAX_PUBLISHER
    && |a.date| <= MAX_DATE && (a.size.Some? ==> a.size.value <= MAX_SIZE_KB)
  }

  lemma ProductFromEntry(p: Platform, entries: seq<Entry>, d: Identity)
    requires d in Identities(p, entries)
    ensures FromEntry(p, entries, d.app)
  {
    var e :| e in entries && Named(p, e) && IdentityOf(p, e) == d;
    assert Normalised(p, e.app) == d.app;
  }

  lemma EntryInBounds(p: Platform, entries: seq<Entry>, a: App)
    requires FromEntry(p, entries, a)
    ensures InBounds(a)
  {}

  ghost predicate FromEntry(p: Platform, entries: seq<Entry>, a: App) {
    exists e :: e in entries && Named(p, e) && Normalised(p, e.app) == a
  }
}
