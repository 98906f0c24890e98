/** Values and list algebra shared by the whole model.

    `Dedup` is the one notion behind every "append unless already there" loop of the
    system: behaviour tags, technique lists and incident technique coverage. */
module Lists {

  datatype Option<+T> = None | Some(value: T)

  function Max(a: int, b: int): int { if a >= b then a else b }

  function Min(a: int, b: int): int { if a <= b then a else b }

  function Clamp(lo: int, hi: int, x: int): int { Max(lo, Min(hi, x)) }

  /** A present, non-empty string: what Python's `if text` accepts. */
  predicate Truthy(s: Option<string>) { s.Some? && s.value != "" }

  /** Python's `a or b` on optional strings. */
  function Or(a: Option<string>, b: Option<string>): Option<string> { if Truthy(a) then a else b }

  /** Decimal rendering of an integer. */
  function Decimal(n: int): string
    decreases n < 0, if n < 0 then -n else n
  {
    if n < 0 then "-" + Decimal(-n)
    else if n < 10 then [('0' as int + n) as char]
    else Decimal(n / 10) + [('0' as int + n % 10) as char]
  }

  // ---------------------------------------------------------------- Dedup

  predicate NoDup<T(==)>(s: seq<T>) { forall i, j :: 0 <= i < j < |s| ==> s[i] != s[j] }

  function AddNew<T(==)>(s: seq<T>, x: T): seq<T> { if x in s then s else s + [x] }

  /** The elements of `s`, each kept at its first occurrence. */
  function Dedup<T(==)>(s: seq<T>): seq<T>
  {
    if s == [] then [] else AddNew(Dedup(s[..|s| - 1]), s[|s| - 1])
  }

  /** The position of the first occurrence of `x`. */
  function First<T(==)>(s: seq<T>, x: T): (i: nat)
    requires x in s
    ensures i < |s| && s[i] == x && x !in s[..i]
  {
    if s[0] == x then 0 else 1 + First(s[1..], x)
  }

  lemma DedupAppend<T>(s: seq<T>, x: T)
    ensures Dedup(s + [x]) == AddNew(Dedup(s), x)
  {
    assert (s + [x])[..|s|] == s;
  }

  /** Same elements, none twice. */
  lemma {:induction false} DedupElements<T>(s: seq<T>)
    ensures forall x :: x in Dedup(s) <==> x in s
    ensures NoDup(Dedup(s))
  {
    if s != [] {
      DedupElements(s[..|s| - 1]);
      assert s == s[..|s| - 1] + [s[|s| - 1]];
    }
  }

  lemma {:induction false} FirstAppend<T>(s: seq<T>, y: T, x: T)
    requires x in s
    ensures First(s + [y], x) == First(s, x)
  {
    if s[0] != x {
      assert (s + [y])[1..] == s[1..] + [y];
      FirstAppend(s[1..], y, x);
    }
  }

  lemma {:induction false} FirstOfNew<T>(s: seq<T>, y: T)
    requires y !in s
    ensures First(s + [y], y) == |s|
  {
    if s != [] {
      assert (s + [y])[1..] == s[1..] + [y];
      FirstOfNew(s[1..], y);
    }
  }

  /** Elements stay in the order in which they first occur. */
  lemma {:induction false} DedupKeepsFirstOrder<T>(s: seq<T>)
    ensures forall x :: x in Dedup(s) ==> x in s
    ensures forall i, j :: 0 <= i < j < |Dedup(s)| ==> First(s, Dedup(s)[i]) < First(s, Dedup(s)[j])
  {
    DedupElements(s);
    if s != [] {
      var p, y := s[..|s| - 1], s[|s| - 1];
      assert s == p + [y];
      DedupKeepsFirstOrder(p);
      DedupElements(p);
      forall x | x in p ensures First(s, x) == First(p, x) { FirstAppend(p, y, x); }
      if y !in p { FirstOfNew(p, y); }
    }
  }

  lemma {:induction false} DedupOfNoDup<T>(s: seq<T>)
    requires NoDup(s)
    ensures Dedup(s) == s
  {
    if s != [] {
      DedupOfNoDup(s[..|s| - 1]);
      assert s == s[..|s| - 1] + [s[|s| - 1]];
    }
  }

  /** Deduplicating early on the left changes nothing: incremental merging is exact. */
  lemma {:induction false} DedupLeft<T>(a: seq<T>, b: seq<T>)
    ensures Dedup(Dedup(a) + b) == Dedup(a + b)
  {
    if b == [] {
      DedupElements(a);
      DedupOfNoDup(Dedup(a));
      assert Dedup(a) + b == Dedup(a) && a + b == a;
    } else {
      var p, x := b[..|b| - 1], b[|b| - 1];
      DedupLeft(a, p);
      assert Dedup(a) + b == (Dedup(a) + p) + [x] && a + b == (a + p) + [x];
      DedupAppend(Dedup(a) + p, x);
      DedupAppend(a + p, x);
    }
  }

  /** Deduplicating early on the right changes nothing either. */
  lemma {:induction false} DedupRight<T>(a: seq<T>, b: seq<T>)
    ensures Dedup(a + Dedup(b)) == Dedup(a + b)
  {
    if b != [] {
      var p, x := b[..|b| - 1], b[|b| - 1];
      DedupRight(a, p);
      assert a + b == (a + p) + [x];
      DedupAppend(a + p, x);
      DedupElements(a + Dedup(p));
      if x in Dedup(p) {
        assert x in a + Dedup(p);
      } else {
        DedupAppendRight(a, Dedup(p), x);
      }
    } else {
      assert Dedup(b) == b;
    }
  }

  lemma DedupAppendRight<T>(a: seq<T>, d: seq<T>, x: T)
    ensures Dedup(a + (d + [x])) == AddNew(Dedup(a + d), x)
  {
    assert a + (d + [x]) == (a + d) + [x];
    DedupAppend(a + d, x);
  }

  /** Appending the elements of `b` one by one, each unless already present. */
  function AddAll<T(==)>(s: seq<T>, b: seq<T>): seq<T>
  {
    if b == [] then s else AddNew(AddAll(s, b[..|b| - 1]), b[|b| - 1])
  }

  lemma {:induction false} AddAllDedup<T>(a: seq<T>, b: seq<T>)
    ensures AddAll(Dedup(a), b) == Dedup(a + b)
  {
    if b == [] {
      assert a + b == a;
    } else {
      var p, x := b[..|b| - 1], b[|b| - 1];
      AddAllDedup(a, p);
      AddAllLast(Dedup(a), b);
      SplitLast(a, b);
      DedupAppend(a + p, x);
    }
  }

  lemma AddAllLast<T>(s: seq<T>, b: seq<T>)
    requires b != []
    ensures AddAll(s, b) == AddNew(AddAll(s, b[..|b| - 1]), b[|b| - 1])
  {
  }

  lemma AllOf<T>(s: seq<T>)
    ensures s[..|s|] == s
  {
  }

  lemma Snoc<T>(s: seq<T>)
    requires s != []
    ensures s == s[..|s| - 1] + [s[|s| - 1]]
  {
  }

  lemma SplitLast<T>(a: seq<T>, b: seq<T>)
    requires b != []
    ensures a + b == (a + b[..|b| - 1]) + [b[|b| - 1]]
  {
  }

  // -------------------------------------------------------------- Flatten

  function Flatten<T>(ss: seq<seq<T>>): seq<T>
  {
    if ss == [] then [] else Flatten(ss[..|ss| - 1]) + ss[|ss| - 1]
  }

  lemma FlattenSnoc<T>(ss: seq<seq<T>>, t: seq<T>)
    ensures Flatten(ss + [t]) == Flatten(ss) + t
  {
    assert (ss + [t])[..|ss|] == ss;
  }

  lemma {:induction false} FlattenAppend<T>(ss: seq<seq<T>>, tt: seq<seq<T>>)
    ensures Flatten(ss + tt) == Flatten(ss) + Flatten(tt)
  {
    if tt == [] {
      assert ss + tt == ss;
    } else {
      var init, last := tt[..|tt| - 1], tt[|tt| - 1];
      FlattenAppend(ss, init);
      SplitLast(ss, tt);
      FlattenSnoc(ss + init, last);
      Assoc(Flatten(ss), Flatten(init), last);
    }
  }

  lemma Assoc<T>(a: seq<T>, b: seq<T>, c: seq<T>)
    ensures a + (b + c) == a + b + c
  {
  }

  lemma DedupSwap<T>(x: seq<T>, y: seq<T>, m: seq<T>)
    requires Dedup(x) == Dedup(y)
    ensures Dedup(x + m) == Dedup(y + Dedup(m))
  {
    calc {
      Dedup(x + m);
      { DedupLeft(x, m); }
      Dedup(Dedup(x) + m);
      { DedupLeft(y, m); }
      Dedup(y + m);
      { DedupRight(y, m); }
      Dedup(y + Dedup(m));
    }
  }

  /** Deduplicating each part before concatenating changes nothing. */
  lemma {:induction false} DedupFlatten<T>(a: seq<T>, ss: seq<seq<T>>, dd: seq<seq<T>>)
    requires |ss| == |dd|
    requires forall i :: 0 <= i < |ss| ==> dd[i] == Dedup(ss[i])
    ensures Dedup(a + Flatten(dd)) == Dedup(a + Flatten(ss))
  {
    if ss != [] {
      var n := |ss| - 1;
      DedupFlatten(a, ss[..n], dd[..n]);
      var s, d := Flatten(ss[..n]), Flatten(dd[..n]);
      Assoc(a, d, dd[n]);
      Assoc(a, s, ss[n]);
      DedupSwap(a + s, a + d, ss[n]);
    }
  }

  // --------------------------------------------------- counting and filters

  function Count<T>(p: T -> bool, s: seq<T>): nat
  {
    if s == [] then 0 else Count(p, s[..|s| - 1]) + (if p(s[|s| - 1]) then 1 else 0)
  }

  function Filter<T>(p: T -> bool, s: seq<T>): seq<T>
  {
    if s == [] then [] else Filter(p, s[..|s| - 1]) + (if p(s[|s| - 1]) then [s[|s| - 1]] else [])
  }

  function Sum(s: seq<int>): int
  {
    if s == [] then 0 else Sum(s[..|s| - 1]) + s[|s| - 1]
  }

  lemma {:induction false} CountAppend<T>(p: T -> bool, a: seq<T>, b: seq<T>)
    ensures Count(p, a + b) == Count(p, a) + Count(p, b)
  {
    if b == [] {
      assert a + b == a;
    } else {
      CountAppend(p, a, b[..|b| - 1]);
      assert (a + b)[..|a + b| - 1] == a + b[..|b| - 1];
    }
  }

  ghost function Positions<T>(p: T -> bool, s: seq<T>): set<int> { set i | 0 <= i < |s| && p(s[i]) }

  /** `Count` is the number of positions whose element satisfies `p`. */
  lemma {:induction false} CountIsCardinality<T>(p: T -> bool, s: seq<T>)
    ensures Count(p, s) == |Positions(p, s)|
  {
    if s == [] {
      assert Positions(p, s) == {};
    } else {
      var n := |s| - 1;
      var before := Positions(p, s[..n]);
      CountIsCardinality(p, s[..n]);
      PositionsGrow(p, s);
      assert n !in before;
    }
  }

  lemma PositionsGrow<T>(p: T -> bool, s: seq<T>)
    requires s != []
    ensures Positions(p, s) == Positions(p, s[..|s| - 1]) + (if p(s[|s| - 1]) then {|s| - 1} else {})
  {
  }

  lemma {:induction false} CountCong<T>(p: T -> bool, q: T -> bool, s: seq<T>)
    requires forall i :: 0 <= i < |s| ==> p(s[i]) == q(s[i])
    ensures Count(p, s) == Count(q, s)
  {
    if s != [] { CountCong(p, q, s[..|s| - 1]); }
  }

  /** `Filter` keeps each element that satisfies `p` as often as it occurs, and no other. */
  lemma {:induction false} FilterIsSelection<T>(p: T -> bool, s: seq<T>, x: T)
    ensures multiset(Filter(p, s))[x] == if p(x) then multiset(s)[x] else 0
  {
    if s != [] {
      FilterIsSelection(p, s[..|s| - 1], x);
      Snoc(s);
    }
  }

  // ----------------------------------------------------------------- digits

  predicate Digits(s: string) { s != "" && forall i :: 0 <= i < |s| ==> '0' <= s[i] <= '9' }

  /** The number a digit string stands for. */
  function Value(s: string): int {
    if s == "" then 0 else 10 * Value(s[..|s| - 1]) + (s[|s| - 1] as int - '0' as int)
  }

  /** Rendering and reading back, without leading zeros. */
  lemma {:induction false} DecimalReads(n: nat)
    ensures Digits(Decimal(n)) && Value(Decimal(n)) == n && (n > 0 ==> Decimal(n)[0] != '0')
  {
    if n < 10 {
      assert Decimal(n)[..0] == "";
    } else {
      DecimalReads(n / 10);
      var d := Decimal(n);
      assert d[..|d| - 1] == Decimal(n / 10);
    }
  }
}
