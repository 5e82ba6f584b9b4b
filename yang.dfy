/** The parsed YANG statements the pyang output plugins walk.

    A statement carries what pyang's parser and validator attach to it: its
    keyword and argument, the substatements as written (`substmts`), the
    expanded schema children (`i_children`), the `i_config` flag, the name
    of its top-level (sub)module (`top.arg`) and of its module
    (`i_module.arg`). A `type` statement also carries the pointers the
    validator resolves: the typedef it names (`i_typedef`), the leaf a
    leafref points at (`i_leafref_ptr`) and, for an identityref, the base
    identity with the identities of the base's module.

    Pointers are embedded values rather than references, so every chain of
    typedefs, leafrefs and identity bases is finite by construction. */
module Yang {
  import opened Wrappers

  /** An identity statement and the identity it derives from (`base`).
      The module and the name together tell identities apart. */
  datatype Identity = Identity(moduleName: string, name: string, base: Option<Identity>)

  /** An identityref's `i_type_spec`: its base identity and the identities
      of the module that defines the base (`i_module.i_identities`, absent
      when that module is unknown). */
  datatype IdentityScope = IdentityScope(base: Identity, moduleIdentities: Option<seq<Identity>>)

  datatype Stmt = Stmt(
    keyword: string,
    arg: string,
    substmts: seq<Stmt>,
    children: seq<Stmt>,
    config: bool,
    top: string,
    moduleName: string,
    typedef: Option<Stmt>,
    leafref: Option<Stmt>,
    identityref: Option<IdentityScope>)

  /** Whether `x` has `keyword` (and `arg`, when one is given). */
  predicate Matches(x: Stmt, keyword: string, arg: Option<string>) {
    x.keyword == keyword && (arg.None? || x.arg == arg.value)
  }

  /** `stmt.search_one(keyword)`: the first substatement with that keyword. */
  function SearchOne(s: Stmt, keyword: string): (r: Option<Stmt>)
    ensures r.Some? <==> exists i :: 0 <= i < |s.substmts| && s.substmts[i].keyword == keyword
    ensures r.Some? ==> r.value in s.substmts && r.value.keyword == keyword
  {
    var r := FirstWith(s.substmts, keyword, None);
    assert forall x :: Matches(x, keyword, None) <==> x.keyword == keyword;
    r
  }

  /** `stmt.search_one(keyword, arg)`: the first substatement with that
      keyword and argument. */
  function SearchOneArg(s: Stmt, keyword: string, arg: string): (r: Option<Stmt>)
    ensures r.Some? <==> exists i :: 0 <= i < |s.substmts| && Matches(s.substmts[i], keyword, Some(arg))
    ensures r.Some? ==> r.value in s.substmts && r.value.keyword == keyword && r.value.arg == arg
  {
    FirstWith(s.substmts, keyword, Some(arg))
  }

  /** `ss[i]` matches and no statement before it does. */
  predicate FirstMatchAt(ss: seq<Stmt>, i: int, keyword: string, arg: Option<string>) {
    0 <= i < |ss| && Matches(ss[i], keyword, arg)
    && forall j :: 0 <= j < i ==> !Matches(ss[j], keyword, arg)
  }

  /** The first statement of `ss` with `keyword` (and `arg`, when given). */
  function FirstWith(ss: seq<Stmt>, keyword: string, arg: Option<string>): (r: Option<Stmt>)
    ensures r.Some? <==> exists i :: 0 <= i < |ss| && Matches(ss[i], keyword, arg)
    ensures r.Some? ==> r.value in ss && Matches(r.value, keyword, arg)
  {
    if ss == [] then None
    else if Matches(ss[0], keyword, arg) then Some(ss[0])
    else
      var r := FirstWith(ss[1..], keyword, arg);
      assert r.Some? ==> r.value in ss;
      assert (exists i :: 0 <= i < |ss| && Matches(ss[i], keyword, arg)) ==> r.Some? by {
        if exists i :: 0 <= i < |ss| && Matches(ss[i], keyword, arg) {
          var i :| 0 <= i < |ss| && Matches(ss[i], keyword, arg);
          assert ss[1..][i - 1] == ss[i];
        }
      }
      r
  }

  /** `FirstWith` finds the earliest match: no statement before it
      matches. */
  lemma {:induction false} FirstWithIsFirst(ss: seq<Stmt>, keyword: string, arg: Option<string>)
    ensures var r := FirstWith(ss, keyword, arg);
      r.Some? ==> exists i :: FirstMatchAt(ss, i, keyword, arg) && ss[i] == r.value
    decreases |ss|
  {
    if ss != [] && !Matches(ss[0], keyword, arg) {
      var r := FirstWith(ss[1..], keyword, arg);
      FirstWithIsFirst(ss[1..], keyword, arg);
      if r.Some? {
        var i :| FirstMatchAt(ss[1..], i, keyword, arg) && ss[1..][i] == r.value;
        assert ss[i + 1] == r.value;
        forall j | 0 <= j < i + 1 ensures !Matches(ss[j], keyword, arg) {
          if j > 0 { assert ss[j] == ss[1..][j - 1]; }
        }
        assert FirstMatchAt(ss, i + 1, keyword, arg);
      }
    } else if ss != [] {
      assert FirstMatchAt(ss, 0, keyword, arg);
    }
  }

  /** `search_one` returns the first substatement with the keyword. */
  lemma SearchOneIsFirst(s: Stmt, keyword: string)
    ensures var r := SearchOne(s, keyword);
      r.Some? ==> exists i :: FirstMatchAt(s.substmts, i, keyword, None) && s.substmts[i] == r.value
  {
    FirstWithIsFirst(s.substmts, keyword, None);
  }

  /** `stmt.search(keyword)`: every substatement with that keyword, in
      order. */
  function Search(s: Stmt, keyword: string): (r: seq<Stmt>)
    ensures forall x :: x in r <==> x in s.substmts && x.keyword == keyword
  {
    AllWith(s.substmts, keyword)
  }

  function AllWith(ss: seq<Stmt>, keyword: string): (r: seq<Stmt>)
    ensures forall x :: x in r <==> x in ss && x.keyword == keyword
  {
    if ss == [] then []
    else (if ss[0].keyword == keyword then [ss[0]] else []) + AllWith(ss[1..], keyword)
  }

  /** The arguments of a sequence of statements, in order. */
  function Args(ss: seq<Stmt>): (r: seq<string>)
    ensures |r| == |ss| && forall i :: 0 <= i < |ss| ==> r[i] == ss[i].arg
  {
    seq(|ss|, i requires 0 <= i < |ss| => ss[i].arg)
  }

  // ---------------------------------------------------------------------
  // Size: a measure that every embedded statement lowers

  /** The number of statement nodes in `s`, counting the embedded typedef
      and leafref targets. */
  function Size(s: Stmt): nat
    decreases s, 1
  {
    1 + SizeAll(s.substmts) + SizeAll(s.children)
      + (if s.typedef.Some? then Size(s.typedef.value) else 0)
      + (if s.leafref.Some? then Size(s.leafref.value) else 0)
  }

  function SizeAll(ss: seq<Stmt>): nat
    decreases ss, 0
  {
    if ss == [] then 0 else Size(ss[0]) + SizeAll(ss[1..])
  }

  lemma {:induction false} SizeOfMember(ss: seq<Stmt>, x: Stmt)
    requires x in ss
    ensures Size(x) <= SizeAll(ss)
    decreases |ss|
  {
    if ss[0] != x {
      SizeOfMember(ss[1..], x);
    }
  }

  /** A substatement is smaller than its parent. */
  lemma SubstmtSmaller(s: Stmt, x: Stmt)
    requires x in s.substmts
    ensures Size(x) < Size(s)
  {
    SizeOfMember(s.substmts, x);
  }
}
