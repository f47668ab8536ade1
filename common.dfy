/** Vocabulary shared by the whole model: optional values, JavaScript
    truthiness, ASCII strings, order-preserving filtering, and the shape of
    an HTTP request to the spreadsheet store. */
module Common {

  datatype Option<T> = None | Some(value: T)

  // ---------------------------------------------------------------------
  // JavaScript truthiness. `undefined`, `null` and "" are falsy strings;
  // `undefined` and 0 are falsy numbers (NaN is not modelled).
  // ---------------------------------------------------------------------

  predicate StrTruthy(o: Option<string>) {
    o.Some? && o.value != ""
  }

  /** `o || d` on an optional string. */
  function StrOr(o: Option<string>, d: string): string {
    if StrTruthy(o) then o.value else d
  }

  predicate NumTruthy(o: Option<real>) {
    o.Some? && o.value != 0.0
  }

  /** `o || d` on an optional number. */
  function NumOr(o: Option<real>, d: real): real {
    if NumTruthy(o) then o.value else d
  }

  /** The signed-in user a server session or a client session carries. */
  datatype SessionUser = SessionUser(id: string, name: Option<string>, email: string, role: string)

  /** `session.user.name || session.user.email`. */
  function DisplayName(user: SessionUser): string {
    StrOr(user.name, user.email)
  }

  // ---------------------------------------------------------------------
  // Strings
  // ---------------------------------------------------------------------

  /** `s.startsWith(prefix)`: a plain character prefix. */
  predicate StartsWith(s: string, prefix: string) {
    |prefix| <= |s| && s[..|prefix|] == prefix
  }

  /** `sub` occurs in `s` starting at position `i`. */
  predicate OccursAt(s: string, sub: string, i: int) {
    0 <= i && i + |sub| <= |s| && s[i..i + |sub|] == sub
  }

  /** `s.includes(sub)`. */
  predicate Contains(s: string, sub: string) {
    exists i | 0 <= i <= |s| - |sub| :: OccursAt(s, sub, i)
  }

  lemma EmptyIsContained(s: string)
    ensures Contains(s, "")
  {
    assert OccursAt(s, "", 0);
  }

  /** `toLowerCase` restricted to ASCII letters. */
  function LowerChar(c: char): char {
    if 'A' <= c <= 'Z' then (c as int + 32) as char else c
  }

  function Lower(s: string): (r: string)
    ensures |r| == |s|
    ensures forall i :: 0 <= i < |s| ==> r[i] == LowerChar(s[i])
  {
    seq(|s|, i requires 0 <= i < |s| => LowerChar(s[i]))
  }

  lemma LowerIsIdempotent(s: string)
    ensures Lower(Lower(s)) == Lower(s)
  {
  }

  /** `s.toLowerCase().includes(term.toLowerCase())`: a case-insensitive
      substring search. */
  predicate MatchesTerm(s: string, term: string) {
    Contains(Lower(s), Lower(term))
  }

  /** The empty search term matches everything. */
  lemma EmptyTermMatches(s: string)
    ensures MatchesTerm(s, "")
  {
    assert Lower("") == "";
    EmptyIsContained(Lower(s));
  }

  /** Matching ignores the case of both the text and the term. */
  lemma MatchIgnoresCase(s: string, term: string)
    ensures MatchesTerm(s, term) <==> MatchesTerm(Lower(s), Lower(term))
  {
    LowerIsIdempotent(s);
    LowerIsIdempotent(term);
  }

  /** `parts.join(sep)`. */
  function Join(parts: seq<string>, sep: string): string {
    if |parts| == 0 then ""
    else if |parts| == 1 then parts[0]
    else parts[0] + sep + Join(parts[1..], sep)
  }

  /** Joining one more part appends the separator and that part. */
  lemma {:induction false} JoinAppend(parts: seq<string>, p: string, sep: string)
    requires |parts| >= 1
    ensures Join(parts + [p], sep) == Join(parts, sep) + sep + p
  {
    if |parts| == 1 {
      assert (parts + [p])[1..] == [p];
    } else {
      assert (parts + [p])[1..] == parts[1..] + [p];
      JoinAppend(parts[1..], p, sep);
    }
  }

  /** `s.split(c)` for a one-character separator: never empty. */
  function Split(s: string, c: char): (r: seq<string>)
    ensures |r| >= 1
  {
    if s == [] then [""]
    else
      var rest := Split(s[1..], c);
      if s[0] == c then [""] + rest else [[s[0]] + rest[0]] + rest[1..]
  }

  lemma {:induction false} SplitWithout(s: string, c: char)
    requires c !in s
    ensures Split(s, c) == [s]
  {
    if s != [] {
      SplitWithout(s[1..], c);
      assert [s[0]] + s[1..] == s;
    }
  }

  lemma {:induction false} SplitAfterField(p: string, c: char, t: string)
    requires c !in p
    ensures Split(p + [c] + t, c) == [p] + Split(t, c)
  {
    if p == [] {
      assert p + [c] + t == [c] + t;
      assert ([c] + t)[1..] == t;
    } else {
      var s := p + [c] + t;
      assert s[0] == p[0];
      assert s[1..] == p[1..] + [c] + t;
      SplitAfterField(p[1..], c, t);
      assert [p[0]] + p[1..] == p;
    }
  }

  /** Splitting a joined line on a separator that no field contains gives
      the fields back. */
  lemma {:induction false} SplitJoin(parts: seq<string>, c: char)
    requires |parts| >= 1
    requires forall k :: 0 <= k < |parts| ==> c !in parts[k]
    ensures Split(Join(parts, [c]), c) == parts
  {
    if |parts| == 1 {
      SplitWithout(parts[0], c);
    } else {
      SplitJoin(parts[1..], c);
      SplitAfterField(parts[0], c, Join(parts[1..], [c]));
      assert [parts[0]] + parts[1..] == parts;
    }
  }

  /** A joined line contains a character only if a part or the separator
      does. */
  lemma {:induction false} JoinAvoids(parts: seq<string>, sep: string, c: char)
    requires c !in sep
    requires forall k :: 0 <= k < |parts| ==> c !in parts[k]
    ensures c !in Join(parts, sep)
  {
    if |parts| > 1 {
      JoinAvoids(parts[1..], sep, c);
    }
  }

  /** `iso.split('T')[0]`: the date part of an ISO timestamp. */
  function DatePart(iso: string): string {
    Split(iso, 'T')[0]
  }

  /** The date part of a timestamp is the text before its 'T'. */
  lemma DatePartOfStamp(day: string, time: string)
    requires 'T' !in day
    ensures DatePart(day + "T" + time) == day
  {
    SplitAfterField(day, 'T', time);
  }

  // ---------------------------------------------------------------------
  // Order-preserving filtering (`Array.prototype.filter`)
  // ---------------------------------------------------------------------

  function Filter<T>(s: seq<T>, keep: T -> bool): (r: seq<T>)
    ensures |r| <= |s|
  {
    if s == [] then []
    else Filter(s[..|s| - 1], keep) + (if keep(s[|s| - 1]) then [s[|s| - 1]] else [])
  }

  /** The positions of `s` whose element is kept, in increasing order. */
  function KeptIndices<T>(s: seq<T>, keep: T -> bool): seq<nat> {
    if s == [] then []
    else KeptIndices(s[..|s| - 1], keep) + (if keep(s[|s| - 1]) then [|s| - 1] else [])
  }

  /** `Filter` picks exactly the kept positions, in order: the result is the
      subsequence of `s` at the strictly increasing positions whose element
      satisfies `keep`, and every such position is picked. */
  lemma {:induction false} FilterSpec<T>(s: seq<T>, keep: T -> bool)
    ensures var r, idx := Filter(s, keep), KeptIndices(s, keep);
      && |r| == |idx|
      && (forall k :: 0 <= k < |idx| ==> idx[k] < |s| && r[k] == s[idx[k]])
      && (forall k, l :: 0 <= k < l < |idx| ==> idx[k] < idx[l])
      && (forall i :: 0 <= i < |s| ==> (keep(s[i]) <==> i in idx))
  {
    if s != [] {
      var n := |s| - 1;
      var s' := s[..n];
      FilterSpec(s', keep);
      var r', idx' := Filter(s', keep), KeptIndices(s', keep);
      var r, idx := Filter(s, keep), KeptIndices(s, keep);
      assert r == r' + (if keep(s[n]) then [s[n]] else []);
      assert idx == idx' + (if keep(s[n]) then [n] else []);
      assert forall k :: 0 <= k < |idx'| ==> idx[k] == idx'[k] && r[k] == r'[k];
      assert forall i :: 0 <= i < n ==> s[i] == s'[i];
    }
  }

  lemma FilterMembership<T>(s: seq<T>, keep: T -> bool, x: T)
    ensures x in Filter(s, keep) <==> x in s && keep(x)
  {
    FilterSpec(s, keep);
    var r, idx := Filter(s, keep), KeptIndices(s, keep);
    if x in r {
      var k :| 0 <= k < |r| && r[k] == x;
      assert s[idx[k]] == x;
    }
    if x in s && keep(x) {
      var i :| 0 <= i < |s| && s[i] == x;
      var k :| 0 <= k < |idx| && idx[k] == i;
      assert r[k] == x;
    }
  }

  lemma {:induction false} FilterKeepsAll<T>(s: seq<T>, keep: T -> bool)
    requires forall i :: 0 <= i < |s| ==> keep(s[i])
    ensures Filter(s, keep) == s
  {
    if s != [] {
      FilterKeepsAll(s[..|s| - 1], keep);
      assert s[..|s| - 1] + [s[|s| - 1]] == s;
    }
  }

  /** Filtering by a predicate and by its negation splits the sequence. */
  lemma {:induction false} FilterComplement<T>(s: seq<T>, keep: T -> bool, drop: T -> bool)
    requires forall x :: drop(x) == !keep(x)
    ensures |Filter(s, keep)| + |Filter(s, drop)| == |s|
  {
    if s != [] {
      FilterComplement(s[..|s| - 1], keep, drop);
    }
  }

  /** `reduce((sum, x) => sum + x, 0)`: a left fold, summing in list order. */
  function Sum(xs: seq<real>): real {
    if xs == [] then 0.0 else Sum(xs[..|xs| - 1]) + xs[|xs| - 1]
  }

  lemma {:induction false} SumConcat(xs: seq<real>, ys: seq<real>)
    ensures Sum(xs + ys) == Sum(xs) + Sum(ys)
  {
    if ys != [] {
      var zs := xs + ys;
      assert zs[..|zs| - 1] == xs + ys[..|ys| - 1];
      SumConcat(xs, ys[..|ys| - 1]);
    } else {
      assert xs + ys == xs;
    }
  }

  // ---------------------------------------------------------------------
  // Requests to the spreadsheet store's REST API
  // ---------------------------------------------------------------------

  /** The JSON values that reach a request body or come back in a record. */
  datatype Value = Num(n: real) | Str(s: string) | Arr(items: seq<Value>) | Obj(fields: map<string, Value>)

  datatype Method = GET | POST | PATCH | DELETE

  /** A request body: `{records: [{fields}]}`, `{fields}`, or none. */
  datatype Body = NoBody | Records(fields: map<string, Value>) | Fields(fields: map<string, Value>)

  /** One request: the path under the base URL, the `filterByFormula` query
      before URI encoding (None when the URL has no query), and the body. */
  datatype Request = Request(verb: Method, path: string, formula: Option<string>, body: Body)

  // ---------------------------------------------------------------------
  // Notifications (`toast.success` / `toast.error`)
  // ---------------------------------------------------------------------

  datatype Toast = ToastSuccess(message: string) | ToastError(message: string)
}
