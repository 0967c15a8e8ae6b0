/** Finite sums over a set of symbols, used to state portfolio totals. */
module Sums {

  ghost function SumOver(s: set<string>, f: string -> real): real {
    if s == {} then 0.0
    else
      var k :| k in s;
      f(k) + SumOver(s - {k}, f)
  }

  /** The total does not depend on which element is taken out first. */
  lemma {:induction false} SumOverRemove(s: set<string>, k: string, f: string -> real)
    requires k in s
    ensures SumOver(s, f) == f(k) + SumOver(s - {k}, f)
    decreases s
  {
    var p :| p in s && SumOver(s, f) == f(p) + SumOver(s - {p}, f);
    if p != k {
      SumOverRemove(s - {p}, k, f);
      SumOverRemove(s - {k}, p, f);
      assert s - {p} - {k} == s - {k} - {p};
    }
  }

  lemma {:induction false} SumOverExtensional(s: set<string>, f: string -> real, g: string -> real)
    requires forall k :: k in s ==> f(k) == g(k)
    ensures SumOver(s, f) == SumOver(s, g)
    decreases s
  {
    if s != {} {
      var k :| k in s;
      SumOverRemove(s, k, f);
      SumOverRemove(s, k, g);
      SumOverExtensional(s - {k}, f, g);
    }
  }

  lemma {:induction false} SumOverPlus(s: set<string>, f: string -> real, g: string -> real, h: string -> real)
    requires forall k :: k in s ==> h(k) == f(k) + g(k)
    ensures SumOver(s, h) == SumOver(s, f) + SumOver(s, g)
    decreases s
  {
    if s != {} {
      var k :| k in s;
      SumOverRemove(s, k, f);
      SumOverRemove(s, k, g);
      SumOverRemove(s, k, h);
      SumOverPlus(s - {k}, f, g, h);
    }
  }

  /** Symbols that contribute nothing may be added to the range of a sum. */
  lemma {:induction false} SumOverWiden(s: set<string>, t: set<string>, f: string -> real)
    requires s <= t
    requires forall k :: k in t && k !in s ==> f(k) == 0.0
    ensures SumOver(t, f) == SumOver(s, f)
    decreases t
  {
    if s != t {
      assert !(t <= s);
      var k :| k in t && k !in s;
      SumOverRemove(t, k, f);
      SumOverWiden(s, t - {k}, f);
    }
  }

  /** Changing one summand moves the total by the change in that summand;
      a newly traded symbol had a zero summand before. */
  lemma SumOverChange(s: set<string>, k: string, f: string -> real, g: string -> real)
    requires forall j :: j != k ==> f(j) == g(j)
    requires k !in s ==> f(k) == 0.0
    ensures SumOver(s + {k}, g) == SumOver(s, f) - f(k) + g(k)
  {
    SumOverRemove(s + {k}, k, g);
    SumOverExtensional(s + {k} - {k}, f, g);
    if k in s {
      SumOverRemove(s, k, f);
      assert s + {k} - {k} == s - {k};
    } else {
      assert s + {k} - {k} == s;
    }
  }
}
