/** A digest without collisions exists: the theorems that ask for one (`events/integrity.py`) are not empty. */
module IdealDigest {
  import opened Wrappers
  import opened Json
  import opened Integrity

  // ---- Self-delimiting text ----

  function Count(n: nat): string {
    if n == 0 then "0" else "1" + Count(n - 1)
  }

  lemma {:induction false} CountSplits(m: nat, n: nat, r: string, s: string)
    requires Count(m) + r == Count(n) + s
    ensures m == n && r == s
  {
    var left, right := Count(m) + r, Count(n) + s;
    assert left[0] == Count(m)[0] && right[0] == Count(n)[0];
    if m == 0 || n == 0 {
      assert left[1..] == r && right[1..] == s;
    } else {
      assert left[1..] == Count(m - 1) + r && right[1..] == Count(n - 1) + s;
      CountSplits(m - 1, n - 1, r, s);
    }
  }

  function Text(s: string): string {
    Count(|s|) + s
  }

  lemma TextSplits(a: string, b: string, r: string, s: string)
    requires Text(a) + r == Text(b) + s
    ensures a == b && r == s
  {
    assert Text(a) + r == Count(|a|) + (a + r) && Text(b) + s == Count(|b|) + (b + s);
    CountSplits(|a|, |b|, a + r, b + s);
    assert (a + r)[..|a|] == a && (b + s)[..|b|] == b && (a + r)[|a|..] == r && (b + s)[|b|..] == s;
  }

  function Size(n: int): nat {
    if n >= 0 then n else -n
  }

  function Signed(n: int): string {
    [if n >= 0 then '+' else '-'] + Count(Size(n))
  }

  lemma SignedSplits(m: int, n: int, r: string, s: string)
    requires Signed(m) + r == Signed(n) + s
    ensures m == n && r == s
  {
    hide Count;
    var left, right := Signed(m) + r, Signed(n) + s;
    assert left[0] == Signed(m)[0] && right[0] == Signed(n)[0];
    assert left[1..] == Count(Size(m)) + r && right[1..] == Count(Size(n)) + s;
    CountSplits(Size(m), Size(n), r, s);
  }

  function Texts(items: seq<string>): string {
    if items == [] then "0" else "1" + (Text(items[0]) + Texts(items[1..]))
  }

  lemma {:induction false} TextsInjective(a: seq<string>, b: seq<string>)
    requires Texts(a) == Texts(b)
    ensures a == b
  {
    assert Texts(a)[0] == Texts(b)[0];
    if a != [] {
      assert Texts(a)[1..] == Text(a[0]) + Texts(a[1..]) && Texts(b)[1..] == Text(b[0]) + Texts(b[1..]);
      TextSplits(a[0], b[0], Texts(a[1..]), Texts(b[1..]));
      TextsInjective(a[1..], b[1..]);
      assert a == [a[0]] + a[1..] && b == [b[0]] + b[1..];
    }
  }

  ghost function SomeKey(m: map<string, string>): (k: string)
    requires m != map[]
    ensures k in m
  {
    var k :| k in m;
    k
  }

  ghost function Table(m: map<string, string>): string {
    if m == map[] then "0"
    else
      var k := SomeKey(m);
      "1" + (Text(k) + (Text(m[k]) + Table(m - {k})))
  }

  lemma {:induction false} TableInjective(a: map<string, string>, b: map<string, string>)
    requires Table(a) == Table(b)
    ensures a == b
    decreases a
  {
    assert Table(a)[0] == Table(b)[0];
    if a != map[] {
      var k, l := SomeKey(a), SomeKey(b);
      var restA, restB := Text(a[k]) + Table(a - {k}), Text(b[l]) + Table(b - {l});
      assert Table(a)[1..] == Text(k) + restA && Table(b)[1..] == Text(l) + restB;
      TextSplits(k, l, restA, restB);
      TextSplits(a[k], b[l], Table(a - {k}), Table(b - {l}));
      TableInjective(a - {k}, b - {k});
      assert a == (a - {k})[k := a[k]] && b == (b - {k})[k := b[k]];
    }
  }

  // ---- JSON values ----

  ghost function Canon(j: Json): string {
    match j
    case Null => "n"
    case Bool(b) => if b then "t" else "f"
    case Num(n) => "i" + Signed(n)
    case Float(m, e) => "d" + (Signed(m) + Signed(e))
    case Str(s) => "s" + s
    case Arr(items) => "a" + Texts(seq(|items|, i requires 0 <= i < |items| => Canon(items[i])))
    case Obj(fields) => "o" + Table(map k | k in fields :: Canon(fields[k]))
  }

  ghost function Canons(items: seq<Json>): (r: seq<string>)
    ensures |r| == |items| && forall i :: 0 <= i < |items| ==> r[i] == Canon(items[i])
  {
    seq(|items|, i requires 0 <= i < |items| => Canon(items[i]))
  }

  ghost function CanonFields(fields: Payload): (r: map<string, string>)
    ensures r.Keys == fields.Keys && forall k :: k in fields ==> r[k] == Canon(fields[k])
  {
    map k | k in fields :: Canon(fields[k])
  }

  lemma CanonOfParts(j: Json)
    ensures j.Arr? ==> Canon(j) == "a" + Texts(Canons(j.items))
    ensures j.Obj? ==> Canon(j) == "o" + Table(CanonFields(j.fields))
  {
    if j.Arr? {
      assert Canons(j.items) == seq(|j.items|, i requires 0 <= i < |j.items| => Canon(j.items[i]));
    }
    if j.Obj? {
      assert CanonFields(j.fields) == (map k | k in j.fields :: Canon(j.fields[k]));
    }
  }

  /** Equal canonical texts mean equal values. */
  lemma {:induction false} CanonInjective(a: Json, b: Json)
    requires Canon(a) == Canon(b)
    ensures a == b
    decreases a
  {
    CanonOfParts(a);
    CanonOfParts(b);
    assert Canon(a)[0] == Canon(b)[0];
    match a {
      case Null =>
      case Bool(_) =>
      case Num(n) =>
        assert Canon(a)[1..] == Signed(n) + [] && Canon(b)[1..] == Signed(b.n) + [];
        SignedSplits(n, b.n, [], []);
      case Float(m, e) =>
        assert Canon(a)[1..] == Signed(m) + Signed(e) && Canon(b)[1..] == Signed(b.mantissa) + Signed(b.exponent);
        SignedSplits(m, b.mantissa, Signed(e), Signed(b.exponent));
        SignedSplits(e, b.exponent, [], []);
      case Str(s) =>
        assert Canon(a)[1..] == s && Canon(b)[1..] == b.s;
      case Arr(items) =>
        assert Canon(a)[1..] == Texts(Canons(items)) && Canon(b)[1..] == Texts(Canons(b.items));
        TextsInjective(Canons(items), Canons(b.items));
        forall i | 0 <= i < |items| ensures items[i] == b.items[i] {
          assert Canons(items)[i] == Canons(b.items)[i];
          CanonInjective(items[i], b.items[i]);
        }
      case Obj(fields) =>
        assert Canon(a)[1..] == Table(CanonFields(fields)) && Canon(b)[1..] == Table(CanonFields(b.fields));
        TableInjective(CanonFields(fields), CanonFields(b.fields));
        assert fields.Keys == b.fields.Keys;
        forall k | k in fields ensures fields[k] == b.fields[k] {
          CanonInjective(fields[k], b.fields[k]);
        }
        assert fields == b.fields;
    }
  }

  // ---- The digest ----

  ghost function Spelled(base: string, body: Payload): string {
    "#" + (Text(base) + Canon(Obj(body)))
  }

  ghost function Spelling(): Digest {
    (base: string, body: Payload) => Spelled(base, body)
  }

  lemma SpelledInjective(base: string, body: Payload, base': string, body': Payload)
    requires Spelled(base, body) == Spelled(base', body')
    ensures base == base' && body == body'
  {
    assert Spelled(base, body)[1..] == Text(base) + Canon(Obj(body));
    assert Spelled(base', body')[1..] == Text(base') + Canon(Obj(body'));
    TextSplits(base, base', Canon(Obj(body)), Canon(Obj(body')));
    CanonInjective(Obj(body), Obj(body'));
  }

  lemma SpelledIsNew(base: string, body: Payload)
    ensures Spelled(base, body) != "" && Spelled(base, body) != base && Spelled(base, body) != GENESIS
  {
    assert |Spelled(base, body)| > |base|;
    assert Spelled(base, body)[0] == '#' && GENESIS[0] == 'g';
  }

  /** Writing out the previous hash and the whole body never collides, never repeats and never gives the
      genesis marker. */
  lemma SpellingIsCollisionFree()
    ensures CollisionFree(Spelling())
  {
    var h := Spelling();
    forall base: string, body: Payload
      ensures h(base, body) != "" && h(base, body) != base && h(base, body) != GENESIS
    {
      SpelledIsNew(base, body);
    }
    forall base: string, body: Payload, base': string, body': Payload | h(base, body) == h(base', body')
      ensures base == base' && body == body'
    {
      SpelledInjective(base, body, base', body');
    }
  }
}
