/**
 * SQL text with `$wpdb->prepare` placeholders. A fragment is a sequence of
 * literal text and `%d`/`%s` holes; a query is well formed for `prepare`
 * when its holes and the parameter list agree in number and in kind.
 */
module Sql {
  import opened Common

  datatype Part = Lit(text: string) | IntHole | StrHole

  type Fragment = seq<Part>

  datatype Param = IntParam(i: int) | StrParam(s: string)

  /** The text `prepare` sees for one part. */
  function PartText(p: Part): string {
    match p
    case Lit(t) => t
    case IntHole => "%d"
    case StrHole => "%s"
  }

  function Render(f: Fragment): string {
    if f == [] then "" else PartText(f[0]) + Render(f[1..])
  }

  /** The holes of a fragment, in order. */
  function Holes(f: Fragment): (h: seq<Part>)
    ensures |h| <= |f|
    ensures forall k :: 0 <= k < |h| ==> !h[k].Lit?
  {
    if f == [] then [] else (if f[0].Lit? then [] else [f[0]]) + Holes(f[1..])
  }

  predicate Fits(hole: Part, p: Param) {
    (hole.IntHole? && p.IntParam?) || (hole.StrHole? && p.StrParam?)
  }

  /** Every hole gets exactly one parameter of its own kind. */
  predicate Binds(holes: seq<Part>, params: seq<Param>) {
    |holes| == |params| && forall k :: 0 <= k < |holes| ==> Fits(holes[k], params[k])
  }

  lemma {:induction false} HolesAppend(f: Fragment, g: Fragment)
    ensures Holes(f + g) == Holes(f) + Holes(g)
  {
    if f == [] {
      assert f + g == g;
    } else {
      assert (f + g)[0] == f[0];
      assert (f + g)[1..] == f[1..] + g;
      HolesAppend(f[1..], g);
    }
  }

  lemma BindsAppend(h1: seq<Part>, p1: seq<Param>, h2: seq<Part>, p2: seq<Param>)
    requires Binds(h1, p1) && Binds(h2, p2)
    ensures Binds(h1 + h2, p1 + p2)
  {
    forall k | 0 <= k < |h1 + h2|
      ensures Fits((h1 + h2)[k], (p1 + p2)[k])
    {
      if k >= |h1| {
        assert (h1 + h2)[k] == h2[k - |h1|] && (p1 + p2)[k] == p2[k - |p1|];
      }
    }
  }

  /** The clauses joined with ` AND `. */
  function JoinAnd(clauses: seq<Fragment>): Fragment {
    if clauses == [] then []
    else if |clauses| == 1 then clauses[0]
    else clauses[0] + [Lit(" AND ")] + JoinAnd(clauses[1..])
  }

  /** `$where_clauses ? 'WHERE ' . implode(' AND ', $where_clauses) : ''`. */
  function WhereSql(clauses: seq<Fragment>): Fragment {
    if clauses == [] then [] else [Lit("WHERE ")] + JoinAnd(clauses)
  }

  /** The holes of all clauses, in order. */
  function AllHoles(clauses: seq<Fragment>): seq<Part> {
    if clauses == [] then [] else Holes(clauses[0]) + AllHoles(clauses[1..])
  }

  lemma {:induction false} HolesOfJoin(clauses: seq<Fragment>)
    ensures Holes(JoinAnd(clauses)) == AllHoles(clauses)
  {
    if |clauses| == 1 {
      assert AllHoles(clauses[1..]) == [];
    } else if |clauses| > 1 {
      var head := clauses[0] + [Lit(" AND ")];
      var rest := JoinAnd(clauses[1..]);
      assert JoinAnd(clauses) == head + rest;
      HolesOfJoin(clauses[1..]);
      HolesAppend(head, rest);
      HolesAppend(clauses[0], [Lit(" AND ")]);
      assert Holes([Lit(" AND ")]) == [];
      assert Holes(head) == Holes(clauses[0]);
    }
  }

  /** The WHERE text has exactly the holes of its clauses, in order. */
  lemma HolesOfWhere(clauses: seq<Fragment>)
    ensures Holes(WhereSql(clauses)) == AllHoles(clauses)
  {
    HolesOfJoin(clauses);
    if clauses != [] {
      HolesAppend([Lit("WHERE ")], JoinAnd(clauses));
      assert Holes([Lit("WHERE ")]) == [];
    }
  }

  lemma AllHolesAppend(clauses: seq<Fragment>, c: Fragment)
    ensures AllHoles(clauses + [c]) == AllHoles(clauses) + Holes(c)
  {
    if clauses != [] {
      assert (clauses + [c])[1..] == clauses[1..] + [c];
      AllHolesAppend(clauses[1..], c);
    }
  }

  /** The number of `%d` and `%s` sequences in a text. */
  function PlaceholderCount(s: string): nat {
    if |s| < 2 then 0
    else (if s[0] == '%' && (s[1] == 'd' || s[1] == 's') then 1 else 0) + PlaceholderCount(s[1..])
  }

  predicate NoPercent(s: string) {
    forall i :: 0 <= i < |s| ==> s[i] != '%'
  }

  /** Literal text carries no `%` of its own: every `%` of the query comes from a hole. */
  predicate PlainLiterals(f: Fragment) {
    forall k :: 0 <= k < |f| && f[k].Lit? ==> NoPercent(f[k].text)
  }

  lemma {:induction false} PlaceholderCountAppend(a: string, b: string)
    requires |a| == 0 || a[|a| - 1] != '%'
    ensures PlaceholderCount(a + b) == PlaceholderCount(a) + PlaceholderCount(b)
  {
    if |a| == 0 {
      assert a + b == b;
    } else if |a| == 1 {
      assert (a + b)[1..] == b;
    } else if |a| > 1 {
      assert (a + b)[1..] == a[1..] + b;
      PlaceholderCountAppend(a[1..], b);
    }
  }

  lemma NoPercentConcat(a: string, b: string)
    requires NoPercent(a) && NoPercent(b)
    ensures NoPercent(a + b)
  {
    forall i | 0 <= i < |a + b|
      ensures (a + b)[i] != '%'
    {
      if i >= |a| {
        assert (a + b)[i] == b[i - |a|];
      }
    }
  }

  lemma NoPercentNoPlaceholder(s: string)
    requires NoPercent(s)
    ensures PlaceholderCount(s) == 0
  {
    if |s| >= 2 {
      NoPercentNoPlaceholder(s[1..]);
    }
  }

  /**
   * With plain literals, the rendered query has exactly one `%d`/`%s` per
   * hole: the placeholder count `prepare` sees is the number of holes.
   */
  lemma {:induction false} RenderedPlaceholders(f: Fragment)
    requires PlainLiterals(f)
    ensures PlaceholderCount(Render(f)) == |Holes(f)|
  {
    if f != [] {
      var head := PartText(f[0]);
      assert PlainLiterals(f[1..]) by {
        forall k | 0 <= k < |f[1..]| && f[1..][k].Lit?
          ensures NoPercent(f[1..][k].text)
        {
          assert f[1..][k] == f[k + 1];
        }
      }
      RenderedPlaceholders(f[1..]);
      if f[0].Lit? {
        assert NoPercent(head);
        NoPercentNoPlaceholder(head);
      } else {
        assert head == "%d" || head == "%s";
      }
      PlaceholderCountAppend(head, Render(f[1..]));
    }
  }
  /** A where clause together with the parameters its holes take. */
  datatype Clause = Clause(sql: Fragment, params: seq<Param>)

  /** A clause `prepare` accepts on its own: one parameter per hole and no stray `%`. */
  predicate WellFormed(c: Clause) {
    Binds(Holes(c.sql), c.params) && PlainLiterals(c.sql)
  }

  predicate AllWellFormed(cs: seq<Clause>) {
    forall k :: 0 <= k < |cs| ==> WellFormed(cs[k])
  }

  lemma AllWellFormedAppend(a: seq<Clause>, b: seq<Clause>)
    requires AllWellFormed(a) && AllWellFormed(b)
    ensures AllWellFormed(a + b)
  {
    forall k | 0 <= k < |a + b|
      ensures WellFormed((a + b)[k])
    {
      if k >= |a| {
        assert (a + b)[k] == b[k - |a|];
      }
    }
  }

  function Sqls(cs: seq<Clause>): (r: seq<Fragment>)
    ensures |r| == |cs|
  {
    if cs == [] then [] else [cs[0].sql] + Sqls(cs[1..])
  }

  function ParamsOf(cs: seq<Clause>): seq<Param> {
    if cs == [] then [] else cs[0].params + ParamsOf(cs[1..])
  }

  lemma {:induction false} SqlsAppend(a: seq<Clause>, b: seq<Clause>)
    ensures Sqls(a + b) == Sqls(a) + Sqls(b)
    ensures ParamsOf(a + b) == ParamsOf(a) + ParamsOf(b)
  {
    if a == [] {
      assert a + b == b;
    } else {
      assert (a + b)[0] == a[0];
      assert (a + b)[1..] == a[1..] + b;
      SqlsAppend(a[1..], b);
    }
  }

  /** Clauses that are each well formed make a well-formed list: the holes of all of them bind the concatenated parameters. */
  lemma {:induction false} ClausesBind(cs: seq<Clause>)
    requires AllWellFormed(cs)
    ensures Binds(AllHoles(Sqls(cs)), ParamsOf(cs))
  {
    if cs != [] {
      ClausesBind(cs[1..]);
      var f := Sqls(cs);
      assert f[0] == cs[0].sql && f[1..] == Sqls(cs[1..]);
      BindsAppend(Holes(cs[0].sql), cs[0].params, AllHoles(Sqls(cs[1..])), ParamsOf(cs[1..]));
    }
  }

  lemma {:induction false} PlainAppend(f: Fragment, g: Fragment)
    requires PlainLiterals(f) && PlainLiterals(g)
    ensures PlainLiterals(f + g)
  {
    forall k | 0 <= k < |f + g| && (f + g)[k].Lit?
      ensures NoPercent((f + g)[k].text)
    {
      if k >= |f| {
        assert (f + g)[k] == g[k - |f|];
      }
    }
  }

  lemma {:induction false} PlainJoin(clauses: seq<Fragment>)
    requires forall k :: 0 <= k < |clauses| ==> PlainLiterals(clauses[k])
    ensures PlainLiterals(JoinAnd(clauses))
  {
    if |clauses| > 1 {
      PlainJoin(clauses[1..]);
      assert NoPercent(" AND ");
      PlainAppend(clauses[0], [Lit(" AND ")]);
      PlainAppend(clauses[0] + [Lit(" AND ")], JoinAnd(clauses[1..]));
    }
  }

  /**
   * The placeholder invariant of a where builder: when every clause is well
   * formed, the rendered `WHERE ...` text has exactly as many `%d`/`%s`
   * placeholders as there are parameters, each of the right kind.
   */
  lemma WherePlaceholders(cs: seq<Clause>)
    requires AllWellFormed(cs)
    ensures Binds(Holes(WhereSql(Sqls(cs))), ParamsOf(cs))
    ensures PlaceholderCount(Render(WhereSql(Sqls(cs)))) == |ParamsOf(cs)|
  {
    var f := Sqls(cs);
    ClausesBind(cs);
    HolesOfWhere(f);
    assert forall k :: 0 <= k < |f| ==> PlainLiterals(f[k]) by {
      forall k | 0 <= k < |f|
        ensures PlainLiterals(f[k])
      {
        SqlsIndex(cs, k);
      }
    }
    PlainJoin(f);
    if f != [] {
      assert NoPercent("WHERE ");
      PlainAppend([Lit("WHERE ")], JoinAnd(f));
    }
    RenderedPlaceholders(WhereSql(f));
  }

  lemma {:induction false} SqlsIndex(cs: seq<Clause>, k: nat)
    requires k < |cs|
    ensures Sqls(cs)[k] == cs[k].sql
  {
    if k > 0 {
      SqlsIndex(cs[1..], k - 1);
    }
  }
  /** Fragments written one after the other, as a string built with `.=`. */
  function Concat(fs: seq<Fragment>): Fragment {
    if fs == [] then [] else Concat(fs[..|fs| - 1]) + fs[|fs| - 1]
  }

  /** The holes of fragments written one after the other are theirs, in order. */
  lemma {:induction false} HolesOfConcat(fs: seq<Fragment>)
    ensures Holes(Concat(fs)) == AllHoles(fs)
  {
    if fs != [] {
      var init := fs[..|fs| - 1];
      HolesOfConcat(init);
      HolesAppend(Concat(init), fs[|fs| - 1]);
      AllHolesAppend(init, fs[|fs| - 1]);
      assert init + [fs[|fs| - 1]] == fs;
    }
  }

  /** Fragments with plain literals, written one after the other, have plain literals. */
  lemma {:induction false} PlainConcat(fs: seq<Fragment>)
    requires forall k :: 0 <= k < |fs| ==> PlainLiterals(fs[k])
    ensures PlainLiterals(Concat(fs))
  {
    if fs != [] {
      var init := fs[..|fs| - 1];
      assert forall k :: 0 <= k < |init| ==> PlainLiterals(init[k]) by {
        forall k | 0 <= k < |init|
          ensures PlainLiterals(init[k])
        {
          assert init[k] == fs[k];
        }
      }
      PlainConcat(init);
      PlainAppend(Concat(init), fs[|fs| - 1]);
    }
  }

  /** Well-formed clauses written one after the other bind their parameters, in order, with no stray `%`. */
  lemma ConcatWellFormed(cs: seq<Clause>)
    requires AllWellFormed(cs)
    ensures Binds(Holes(Concat(Sqls(cs))), ParamsOf(cs))
    ensures PlainLiterals(Concat(Sqls(cs)))
  {
    var fs := Sqls(cs);
    ClausesBind(cs);
    HolesOfConcat(fs);
    forall k | 0 <= k < |fs|
      ensures PlainLiterals(fs[k])
    {
      SqlsIndex(cs, k);
    }
    PlainConcat(fs);
  }

  /** `... LIMIT %d OFFSET %d`: two integer holes after literal text. */
  lemma LimitOffsetHoles(a: string, b: string)
    ensures Holes([Lit(a), IntHole, Lit(b), IntHole]) == [IntHole, IntHole]
  {
    var t := [Lit(a), IntHole, Lit(b), IntHole];
    assert t[1..] == [IntHole, Lit(b), IntHole] && t[1..][1..] == [Lit(b), IntHole];
    assert t[1..][1..][1..] == [IntHole] && [IntHole][1..] == [];
    assert Holes([IntHole]) == [IntHole];
    assert Holes(t[1..][1..]) == [IntHole];
    assert Holes(t[1..]) == [IntHole, IntHole];
  }
}
