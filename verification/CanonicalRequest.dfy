/** The canonical tree of a request: equal trees mean requests that are equal up to the order of
    mappings, the scale of decimals and the choice of list or tuple, with every other type distinct. */
module CanonicalRequest {
  import opened Wrappers
  import opened ExactSum
  import opened CanonicalAmount

  /** A request parameter as a caller writes it. A float stands for its representation. */
  datatype Parameter =
    | Nothing
    | Text(text: string)
    | Flag(flag: bool)
    | Whole(whole: int)
    | Float(bits: int)
    | Amount(amount: Decimal)
    | Items(items: seq<Parameter>, tuple: bool)
    | Mapping(entries: seq<Item>)

  /** One entry of a mapping, in the order the caller inserted it. */
  datatype Item = Item(key: string, value: Parameter)

  datatype Tree =
    | NothingTree
    | TextTree(text: string)
    | FlagTree(flag: bool)
    | WholeTree(whole: int)
    | FloatTree(bits: int)
    | DecimalTree(text: string)
    | SequenceTree(items: seq<Tree>)
    | MappingTree(entries: seq<Branch>)

  datatype Branch = Branch(key: string, tree: Tree)

  // ---- the order of keys ----

  predicate Before(a: string, b: string) {
    a == "" || (b != "" && (a[0] < b[0] || (a[0] == b[0] && Before(a[1..], b[1..]))))
  }

  lemma {:induction false} BeforeTotal(a: string, b: string)
    ensures Before(a, b) || Before(b, a)
  {
    if a != "" && b != "" {
      BeforeTotal(a[1..], b[1..]);
    }
  }

  lemma {:induction false} BeforeAntisymmetric(a: string, b: string)
    requires Before(a, b) && Before(b, a)
    ensures a == b
  {
    if a != "" && b != "" {
      BeforeAntisymmetric(a[1..], b[1..]);
      assert a == [a[0]] + a[1..] && b == [b[0]] + b[1..];
    }
  }

  lemma {:induction false} BeforeTransitive(a: string, b: string, c: string)
    requires Before(a, b) && Before(b, c)
    ensures Before(a, c)
  {
    if a != "" && b != "" && c != "" && a[0] == b[0] && b[0] == c[0] {
      BeforeTransitive(a[1..], b[1..], c[1..]);
    }
  }

  // ---- sorting branches by key ----

  function InsertBranch(b: Branch, bs: seq<Branch>): seq<Branch> {
    if bs == [] || Before(b.key, bs[0].key) then [b] + bs else [bs[0]] + InsertBranch(b, bs[1..])
  }

  function SortBranches(bs: seq<Branch>): seq<Branch> {
    if bs == [] then [] else InsertBranch(bs[0], SortBranches(bs[1..]))
  }

  ghost predicate Sorted(bs: seq<Branch>) {
    forall i, j :: 0 <= i < j < |bs| ==> Before(bs[i].key, bs[j].key)
  }

  ghost predicate Distinct(bs: seq<Branch>) {
    forall i, j :: 0 <= i < j < |bs| ==> bs[i].key != bs[j].key
  }

  lemma {:induction false} InsertKeeps(b: Branch, bs: seq<Branch>)
    requires Sorted(bs)
    ensures Sorted(InsertBranch(b, bs))
    ensures |InsertBranch(b, bs)| == |bs| + 1
    ensures forall x :: x in InsertBranch(b, bs) <==> x == b || x in bs
  {
    if bs == [] {
    } else if Before(b.key, bs[0].key) {
      forall j | 0 <= j < |bs|
        ensures Before(b.key, bs[j].key)
      {
        if 0 < j {
          BeforeTransitive(b.key, bs[0].key, bs[j].key);
        }
      }
    } else {
      var t := InsertBranch(b, bs[1..]);
      InsertKeeps(b, bs[1..]);
      BeforeTotal(b.key, bs[0].key);
      forall j | 0 <= j < |t|
        ensures Before(bs[0].key, t[j].key)
      {
        assert t[j] in t;
        if t[j] != b {
          var k :| 0 <= k < |bs[1..]| && bs[1..][k] == t[j];
          assert bs[k + 1] == t[j];
        }
      }
    }
  }

  lemma {:induction false} SortKeeps(bs: seq<Branch>)
    ensures Sorted(SortBranches(bs))
    ensures |SortBranches(bs)| == |bs|
    ensures forall x :: x in SortBranches(bs) <==> x in bs
  {
    if bs == [] {
    } else {
      SortKeeps(bs[1..]);
      InsertKeeps(bs[0], SortBranches(bs[1..]));
      assert forall x :: x in bs <==> x == bs[0] || x in bs[1..];
    }
  }

  /** The first of two sorted sequences with the same branches is the same branch. */
  lemma SameFirst(xs: seq<Branch>, ys: seq<Branch>)
    requires Sorted(xs) && Sorted(ys) && xs != [] && ys != []
    requires forall b :: b in xs <==> b in ys
    requires Distinct(ys)
    ensures xs[0] == ys[0]
  {
    assert xs[0] in ys && ys[0] in xs;
    var j :| 0 <= j < |ys| && ys[j] == xs[0];
    var i :| 0 <= i < |xs| && xs[i] == ys[0];
    if j != 0 {
      assert Before(ys[0].key, ys[j].key);
      if i != 0 {
        assert Before(xs[0].key, xs[i].key);
        BeforeAntisymmetric(xs[0].key, ys[0].key);
      }
    }
  }

  /** Sorting leaves no freedom: sequences with the same branches under distinct keys sort alike. */
  lemma {:induction false} SortedIsUnique(xs: seq<Branch>, ys: seq<Branch>)
    requires Sorted(xs) && Sorted(ys) && Distinct(xs) && Distinct(ys)
    requires forall b :: b in xs <==> b in ys
    ensures xs == ys
  {
    assert xs != [] ==> xs[0] in ys;
    assert ys != [] ==> ys[0] in xs;
    if xs != [] {
      SameFirst(xs, ys);
      forall b
        ensures b in xs[1..] <==> b in ys[1..]
      {
        InRest(xs, b);
        InRest(ys, b);
      }
      SortedIsUnique(xs[1..], ys[1..]);
      assert xs == [xs[0]] + xs[1..] && ys == [ys[0]] + ys[1..];
    }
  }

  lemma InRest(xs: seq<Branch>, b: Branch)
    requires xs != [] && Distinct(xs)
    ensures b in xs[1..] <==> b in xs && b != xs[0]
  {
    if b in xs[1..] {
      var k :| 0 <= k < |xs[1..]| && xs[1..][k] == b;
      assert xs[k + 1] == b;
    }
  }

  lemma {:induction false} DistinctSorted(bs: seq<Branch>)
    requires Distinct(bs)
    ensures Distinct(SortBranches(bs))
  {
    if bs == [] {
    } else {
      DistinctSorted(bs[1..]);
      SortKeeps(bs[1..]);
      forall x | x in SortBranches(bs[1..])
        ensures x.key != bs[0].key
      {
        var k :| 0 <= k < |bs[1..]| && bs[1..][k] == x;
        assert bs[k + 1] == x;
      }
      InsertDistinct(bs[0], SortBranches(bs[1..]));
    }
  }

  lemma {:induction false} InsertDistinct(b: Branch, bs: seq<Branch>)
    requires Sorted(bs) && Distinct(bs) && forall x :: x in bs ==> x.key != b.key
    ensures Distinct(InsertBranch(b, bs))
  {
    if bs == [] || Before(b.key, bs[0].key) {
    } else {
      InsertDistinct(b, bs[1..]);
      InsertKeeps(b, bs[1..]);
      var t := InsertBranch(b, bs[1..]);
      forall j | 0 <= j < |t|
        ensures bs[0].key != t[j].key
      {
        assert t[j] in t;
        assert bs[0] in bs;
        if t[j] != b {
          var k :| 0 <= k < |bs[1..]| && bs[1..][k] == t[j];
          assert bs[k + 1] == t[j];
        }
      }
    }
  }

  // ---- the canonical tree ----

  function Canonical(p: Parameter): Tree
    decreases p
  {
    match p
    case Nothing => NothingTree
    case Text(s) => TextTree(s)
    case Flag(b) => FlagTree(b)
    case Whole(n) => WholeTree(n)
    case Float(bits) => FloatTree(bits)
    case Amount(a) => DecimalTree(CanonicalText(a))
    case Items(items, _) => SequenceTree(seq(|items|, i requires 0 <= i < |items| => Canonical(items[i])))
    case Mapping(entries) => MappingTree(SortBranches(Branches(entries)))
  }

  function Branches(entries: seq<Item>): seq<Branch>
    decreases entries
  {
    seq(|entries|, i requires 0 <= i < |entries| => Branch(entries[i].key, Canonical(entries[i].value)))
  }

  /** A dictionary has one entry per key. */
  ghost predicate WellFormed(p: Parameter)
    decreases p
  {
    match p
    case Items(items, _) => forall i :: 0 <= i < |items| ==> WellFormed(items[i])
    case Mapping(entries) =>
      && DistinctKeys(entries)
      && (forall i :: 0 <= i < |entries| ==> WellFormed(entries[i].value))
    case _ => true
  }

  /** Equal requests: same types and values, decimals by number, mappings by key, and sequences by
      position whether they were lists or tuples. */
  ghost predicate Same(p: Parameter, q: Parameter)
    decreases p
  {
    match p
    case Amount(a) => q.Amount? && SameNumber(a, q.amount)
    case Items(items, _) =>
      q.Items? && |items| == |q.items| && forall i :: 0 <= i < |items| ==> Same(items[i], q.items[i])
    case Mapping(entries) =>
      && q.Mapping?
      && (forall i :: 0 <= i < |entries| ==>
            var other := Lookup(q.entries, entries[i].key);
            other.Some? && Same(entries[i].value, other.value))
      && (forall j :: 0 <= j < |q.entries| ==> Lookup(entries, q.entries[j].key).Some?)
    case _ => p == q
  }

  function Lookup(entries: seq<Item>, key: string): Option<Parameter> {
    if entries == [] then None
    else if entries[0].key == key then Some(entries[0].value)
    else Lookup(entries[1..], key)
  }

  ghost predicate DistinctKeys(entries: seq<Item>) {
    forall i, j :: 0 <= i < j < |entries| ==> entries[i].key != entries[j].key
  }

  lemma BranchesDistinct(entries: seq<Item>)
    requires DistinctKeys(entries)
    ensures Distinct(Branches(entries))
  {
  }

  /** Sorted trees of two mappings are equal exactly when each has every branch of the other. */
  lemma {:induction false} MappingTrees(es: seq<Item>, fs: seq<Item>)
    requires DistinctKeys(es) && DistinctKeys(fs)
    ensures SortBranches(Branches(es)) == SortBranches(Branches(fs))
       <==> SameBranches(es, fs)
  {
    var xs, ys := Branches(es), Branches(fs);
    BranchesDistinct(es);
    BranchesDistinct(fs);
    SortKeeps(xs);
    SortKeeps(ys);
    DistinctSorted(xs);
    DistinctSorted(ys);
    if SameBranches(es, fs) {
      SortedIsUnique(SortBranches(xs), SortBranches(ys));
    }
  }

  ghost predicate SameBranches(es: seq<Item>, fs: seq<Item>) {
    forall b :: b in Branches(es) <==> b in Branches(fs)
  }

  lemma {:induction false} LookupFinds(entries: seq<Item>, i: nat)
    requires DistinctKeys(entries) && i < |entries|
    ensures Lookup(entries, entries[i].key) == Some(entries[i].value)
  {
    if 0 < i {
      assert entries[0].key != entries[i].key;
      LookupFinds(entries[1..], i - 1);
    }
  }

  lemma {:induction false} LookupIsThere(entries: seq<Item>, key: string) returns (i: nat)
    requires Lookup(entries, key).Some?
    ensures i < |entries| && entries[i] == Item(key, Lookup(entries, key).value)
  {
    if entries[0].key == key {
      i := 0;
    } else {
      i := LookupIsThere(entries[1..], key);
      i := i + 1;
    }
  }

  /** A branch is in the tree of a mapping when its key is looked up to its tree. */
  lemma BranchIsLookup(entries: seq<Item>, b: Branch)
    requires DistinctKeys(entries)
    ensures b in Branches(entries)
       <==> Lookup(entries, b.key).Some? && Canonical(Lookup(entries, b.key).value) == b.tree
  {
    hide Canonical, Lookup;
    if b in Branches(entries) {
      var i :| 0 <= i < |entries| && Branches(entries)[i] == b;
      LookupFinds(entries, i);
    }
    if Lookup(entries, b.key).Some? {
      var i := LookupIsThere(entries, b.key);
      assert Branches(entries)[i] == Branch(b.key, Canonical(entries[i].value));
    }
  }

  ghost predicate SameLookups(es: seq<Item>, fs: seq<Item>) {
    && (forall i :: 0 <= i < |es| ==>
          var other := Lookup(fs, es[i].key);
          other.Some? && Canonical(es[i].value) == Canonical(other.value))
    && (forall j :: 0 <= j < |fs| ==> Lookup(es, fs[j].key).Some?)
  }

  lemma BranchesMeanLookups(es: seq<Item>, fs: seq<Item>)
    requires DistinctKeys(es) && DistinctKeys(fs) && SameBranches(es, fs)
    ensures SameLookups(es, fs)
  {
    hide Canonical, Lookup;
    forall i | 0 <= i < |es|
      ensures Lookup(fs, es[i].key).Some? && Canonical(es[i].value) == Canonical(Lookup(fs, es[i].key).value)
    {
      BranchAt(es, i);
      BranchIsLookup(fs, Branch(es[i].key, Canonical(es[i].value)));
    }
    forall j | 0 <= j < |fs|
      ensures Lookup(es, fs[j].key).Some?
    {
      BranchAt(fs, j);
      BranchIsLookup(es, Branch(fs[j].key, Canonical(fs[j].value)));
    }
  }

  lemma LookupsMeanBranches(es: seq<Item>, fs: seq<Item>)
    requires DistinctKeys(es) && DistinctKeys(fs) && SameLookups(es, fs)
    ensures SameBranches(es, fs)
  {
    hide Canonical, Lookup;
    forall b
      ensures b in Branches(es) <==> b in Branches(fs)
    {
      BranchIsLookup(es, b);
      BranchIsLookup(fs, b);
      if Lookup(es, b.key).Some? {
        var i := LookupIsThere(es, b.key);
        assert es[i].key == b.key;
      }
      if Lookup(fs, b.key).Some? {
        var j := LookupIsThere(fs, b.key);
        assert fs[j].key == b.key;
      }
    }
  }

  lemma BranchAt(entries: seq<Item>, i: nat)
    requires i < |entries|
    ensures Branch(entries[i].key, Canonical(entries[i].value)) in Branches(entries)
  {
    assert Branches(entries)[i] == Branch(entries[i].key, Canonical(entries[i].value));
  }

  /** Two requests have equal canonical trees exactly when they are equal requests. */
  lemma {:induction false} CanonicalIsExact(p: Parameter, q: Parameter)
    requires WellFormed(p) && WellFormed(q)
    ensures Canonical(p) == Canonical(q) <==> Same(p, q)
    decreases p
  {
    match p
    case Amount(a) =>
      if q.Amount? {
        CanonicalTextIsExact(a, q.amount);
      }
    case Items(items, _) =>
      if q.Items? {
        forall i | 0 <= i < |items| && i < |q.items|
          ensures Canonical(items[i]) == Canonical(q.items[i]) <==> Same(items[i], q.items[i])
        {
          CanonicalIsExact(items[i], q.items[i]);
        }
        SequenceTrees(items, p.tuple, q.items, q.tuple);
      }
    case Mapping(entries) =>
      if q.Mapping? {
        forall i | 0 <= i < |entries| && Lookup(q.entries, entries[i].key).Some?
          ensures var other := Lookup(q.entries, entries[i].key).value;
            Canonical(entries[i].value) == Canonical(other) <==> Same(entries[i].value, other)
        {
          var j := LookupIsThere(q.entries, entries[i].key);
          CanonicalIsExact(entries[i].value, q.entries[j].value);
        }
        MappingTrees(entries, q.entries);
        if SameBranches(entries, q.entries) {
          BranchesMeanLookups(entries, q.entries);
        } else if SameLookups(entries, q.entries) {
          LookupsMeanBranches(entries, q.entries);
        }
        assert SameLookups(entries, q.entries) <==> Same(p, q);
      }
    case _ =>
  }

  lemma SequenceTrees(xs: seq<Parameter>, t: bool, ys: seq<Parameter>, u: bool)
    ensures Canonical(Items(xs, t)) == Canonical(Items(ys, u))
       <==> |xs| == |ys| && forall i :: 0 <= i < |xs| ==> Canonical(xs[i]) == Canonical(ys[i])
  {
    var x, y := Canonical(Items(xs, t)).items, Canonical(Items(ys, u)).items;
    if x == y {
      forall i | 0 <= i < |xs|
        ensures Canonical(xs[i]) == Canonical(ys[i])
      {
        assert x[i] == y[i];
      }
    }
  }

  // ---- resuming a reservation ----

  /** The request that a digest covers: the operation type, the amount and the parameters. */
  function Covered(operationType: string, amount: Option<Decimal>, entries: seq<Item>): Parameter {
    Items([Text(operationType), match amount case None => Nothing case Some(a) => Amount(a), Mapping(entries)], false)
  }

  /** A same-ID command resumes a reservation exactly when type, amount and parameters are equal: the
      digest is an injective function of this tree. */
  lemma {:induction false} DigestIdentifiesRequest(t: string, a: Option<Decimal>, es: seq<Item>, u: string,
                                                   b: Option<Decimal>, fs: seq<Item>)
    requires WellFormed(Mapping(es)) && WellFormed(Mapping(fs))
    ensures Canonical(Covered(t, a, es)) == Canonical(Covered(u, b, fs))
       <==> && t == u
            && (if a.Some? && b.Some? then SameNumber(a.value, b.value) else a.None? && b.None?)
            && Same(Mapping(es), Mapping(fs))
  {
    hide Canonical;
    var p, q := Covered(t, a, es), Covered(u, b, fs);
    CanonicalIsExact(p, q);
    assert Same(p, q) <==> Same(p.items[0], q.items[0]) && Same(p.items[1], q.items[1]) && Same(p.items[2], q.items[2]);
  }
}
