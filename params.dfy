/**
 * Query-parameter normalisation done by `SmartViewClient._clean_params`:
 * entries whose value is None, "" or [] are dropped, list values become the
 * comma-joined `str()` forms of their elements, and every other value is
 * copied unchanged. A dict is its (key, value) entries in insertion order.
 */
module Params {
  import opened Wrappers

  /** A scalar the tool layer puts into a query dict. */
  datatype Atom = Nil | Bool(b: bool) | Int(n: int) | Str(s: string)

  /** A query-parameter value: a scalar or a flat list of scalars. */
  datatype Value = Scalar(atom: Atom) | List(items: seq<Atom>)

  /** A Python dict, as its entries in insertion order. */
  type Params = seq<(string, Value)>

  /** Keys of a real dict are pairwise distinct. */
  predicate DistinctKeys(p: Params) {
    forall i, j :: 0 <= i < j < |p| ==> p[i].0 != p[j].0
  }

  function Keys(p: Params): set<string> {
    set i | 0 <= i < |p| :: p[i].0
  }

  /** `d.get(k)`: the value of the last entry with key `k`. */
  function Lookup(p: Params, k: string): Option<Value> {
    if p == [] then None
    else if p[|p| - 1].0 == k then Some(p[|p| - 1].1)
    else Lookup(p[..|p| - 1], k)
  }

  // ---------------------------------------------------------------------
  // str() of scalars

  function DigitChar(d: nat): char
    requires d < 10
  {
    "0123456789"[d]
  }

  predicate IsDigits(s: string) {
    forall i :: 0 <= i < |s| ==> '0' <= s[i] <= '9'
  }

  /** Decimal digits of a natural number, most significant first, no leading zero. */
  function NatToDecimal(n: nat): (r: string)
    ensures |r| > 0 && IsDigits(r)
    ensures |r| > 1 ==> r[0] != '0'
    ensures r[0] == '0' <==> n == 0
    decreases n
  {
    if n < 10 then [DigitChar(n)] else NatToDecimal(n / 10) + [DigitChar(n % 10)]
  }

  /** The number a string of decimal digits denotes. */
  function DecimalValue(s: string): nat
    requires IsDigits(s)
  {
    if s == [] then 0
    else DecimalValue(s[..|s| - 1]) * 10 + (s[|s| - 1] as int - '0' as int)
  }

  lemma {:induction false} DecimalRoundTrip(n: nat)
    ensures DecimalValue(NatToDecimal(n)) == n
    decreases n
  {
    var r := NatToDecimal(n);
    if n >= 10 {
      DecimalRoundTrip(n / 10);
      assert r[..|r| - 1] == NatToDecimal(n / 10);
    }
  }

  /** `str(n)` for a Python int. */
  function IntToDecimal(n: int): (r: string)
    ensures |r| > 0 && ',' !in r
    ensures n >= 0 ==> IsDigits(r) && DecimalValue(r) == n
    ensures n < 0 ==> r[0] == '-' && IsDigits(r[1..]) && DecimalValue(r[1..]) == -n
    ensures n >= 0 && |r| > 1 ==> r[0] != '0'
    ensures n < 0 ==> |r| > 1 && r[1] != '0'
  {
    if n >= 0 then
      DecimalRoundTrip(n);
      NatToDecimal(n)
    else
      DecimalRoundTrip(-n);
      assert ("-" + NatToDecimal(-n))[1..] == NatToDecimal(-n);
      "-" + NatToDecimal(-n)
  }

  /** `str(v)` for a scalar list element. */
  function StrForm(a: Atom): string {
    match a
    case Nil => "None"
    case Bool(b) => if b then "True" else "False"
    case Int(n) => IntToDecimal(n)
    case Str(s) => s
  }

  // ---------------------------------------------------------------------
  // ",".join and its inverse str.split(",")

  /** `",".join(xs)`. */
  function Join(xs: seq<string>): string {
    if xs == [] then ""
    else if |xs| == 1 then xs[0]
    else xs[0] + "," + Join(xs[1..])
  }

  /** Index of the first ',' in `s`, or |s| when there is none. */
  function CommaIndex(s: string): (i: nat)
    ensures i <= |s|
    ensures i < |s| <==> ',' in s
    ensures i < |s| ==> s[i] == ','
    ensures ',' !in s[..i]
  {
    if s == [] then 0
    else if s[0] == ',' then 0
    else
      var j := CommaIndex(s[1..]);
      assert s[1..][..j] == s[1..j + 1];
      assert s[..j + 1] == [s[0]] + s[1..j + 1];
      1 + j
  }

  /** `s.split(",")`. */
  function Split(s: string): (r: seq<string>)
    ensures |r| > 0
    decreases |s|
  {
    var i := CommaIndex(s);
    if i == |s| then [s] else [s[..i]] + Split(s[i + 1..])
  }

  lemma CommaIndexOfJoined(a: string, b: string)
    requires ',' !in a
    ensures CommaIndex(a + "," + b) == |a|
    decreases |a|
  {
    if a != [] {
      assert (a + "," + b)[1..] == a[1..] + "," + b;
      CommaIndexOfJoined(a[1..], b);
    }
  }

  /** Joining comma-free strings with "," can be undone by splitting on ",". */
  lemma {:induction false} SplitJoin(xs: seq<string>)
    requires |xs| > 0
    requires forall i :: 0 <= i < |xs| ==> ',' !in xs[i]
    ensures Split(Join(xs)) == xs
    decreases |xs|
  {
    if |xs| > 1 {
      var s := xs[0] + "," + Join(xs[1..]);
      CommaIndexOfJoined(xs[0], Join(xs[1..]));
      assert s[..|xs[0]|] == xs[0];
      assert s[|xs[0]| + 1..] == Join(xs[1..]);
      SplitJoin(xs[1..]);
    }
  }

  // ---------------------------------------------------------------------
  // _clean_params

  /** `value is not None and value != "" and value != []`. */
  predicate Kept(v: Value) {
    v != Scalar(Nil) && v != Scalar(Str("")) && v != List([])
  }

  /** The `str()` forms of a list's elements. */
  function StrForms(xs: seq<Atom>): (r: seq<string>)
    ensures |r| == |xs|
    ensures forall i :: 0 <= i < |xs| ==> r[i] == StrForm(xs[i])
  {
    if xs == [] then [] else [StrForm(xs[0])] + StrForms(xs[1..])
  }

  /** The value a kept entry gets in the cleaned dict. */
  function Normalized(v: Value): Value {
    match v
    case List(xs) => Scalar(Str(Join(StrForms(xs))))
    case Scalar(_) => v
  }

  /** The cleaned dict, built entry by entry in insertion order. */
  function Cleaned(p: Params): Params {
    if p == [] then []
    else
      var (k, v) := p[|p| - 1];
      Cleaned(p[..|p| - 1]) + (if Kept(v) then [(k, Normalized(v))] else [])
  }

  /** `SmartViewClient._clean_params`: a loop that inserts each kept entry. */
  method CleanParams(params: Params) returns (cleaned: Params)
    ensures cleaned == Cleaned(params)
  {
    cleaned := [];
    var i := 0;
    while i < |params|
      invariant 0 <= i <= |params|
      invariant cleaned == Cleaned(params[..i])
    {
      var (key, value) := params[i];
      assert params[..i + 1][..i] == params[..i];
      if value != Scalar(Nil) && value != Scalar(Str("")) && value != List([]) {
        match value {
          case List(xs) =>
            cleaned := cleaned + [(key, Scalar(Str(Join(StrForms(xs)))))];
          case Scalar(_) =>
            cleaned := cleaned + [(key, value)];
        }
      }
      i := i + 1;
    }
    assert params[..i] == params;
  }

  // ---------------------------------------------------------------------
  // Properties of the cleaned dict

  /** Exactly the input keys whose value is kept appear in the output: no key is added. */
  lemma {:induction false} CleanedKeys(p: Params)
    ensures Keys(Cleaned(p)) == set i | 0 <= i < |p| && Kept(p[i].1) :: p[i].0
    decreases |p|
  {
    if p != [] {
      var q := p[..|p| - 1];
      CleanedKeys(q);
      var last := p[|p| - 1];
      var c := Cleaned(q) + (if Kept(last.1) then [(last.0, Normalized(last.1))] else []);
      assert Cleaned(p) == c;
      assert Keys(c) == Keys(Cleaned(q)) + (if Kept(last.1) then {last.0} else {}) by {
        forall k | k in Keys(c) ensures k in Keys(Cleaned(q)) + (if Kept(last.1) then {last.0} else {}) {
          var i :| 0 <= i < |c| && c[i].0 == k;
          if i < |Cleaned(q)| { assert Cleaned(q)[i] == c[i]; }
        }
        forall k | k in Keys(Cleaned(q)) ensures k in Keys(c) {
          var i :| 0 <= i < |Cleaned(q)| && Cleaned(q)[i].0 == k;
          assert c[i] == Cleaned(q)[i];
        }
        if Kept(last.1) { assert c[|c| - 1].0 == last.0; }
      }
      var want := set i | 0 <= i < |p| && Kept(p[i].1) :: p[i].0;
      var wantQ := set i | 0 <= i < |q| && Kept(q[i].1) :: q[i].0;
      assert want == wantQ + (if Kept(last.1) then {last.0} else {}) by {
        forall k | k in want ensures k in wantQ + (if Kept(last.1) then {last.0} else {}) {
          var i :| 0 <= i < |p| && Kept(p[i].1) && p[i].0 == k;
          if i < |q| { assert q[i] == p[i]; }
        }
        forall k | k in wantQ ensures k in want {
          var i :| 0 <= i < |q| && Kept(q[i].1) && q[i].0 == k;
          assert p[i] == q[i];
        }
        if Kept(last.1) { assert p[|p| - 1] == last; }
      }
    }
  }

  lemma {:induction false} LookupAbsent(p: Params, k: string)
    ensures Lookup(p, k).None? <==> k !in Keys(p)
    decreases |p|
  {
    if p != [] {
      var q := p[..|p| - 1];
      LookupAbsent(q, k);
      assert Keys(p) == Keys(q) + {p[|p| - 1].0} by {
        forall x | x in Keys(p) ensures x in Keys(q) + {p[|p| - 1].0} {
          var i :| 0 <= i < |p| && p[i].0 == x;
          if i < |q| { assert q[i] == p[i]; }
        }
        forall x | x in Keys(q) ensures x in Keys(p) {
          var i :| 0 <= i < |q| && q[i].0 == x;
          assert p[i] == q[i];
        }
      }
    }
  }

  /** In a dict, the last entry's key occurs nowhere before it. */
  lemma LastKeyFresh(p: Params)
    requires p != [] && DistinctKeys(p)
    ensures p[|p| - 1].0 !in Keys(p[..|p| - 1])
  {
  }

  /** No key is added: every key of the cleaned dict is a key of the input. */
  lemma CleanedKeysSubset(p: Params)
    ensures Keys(Cleaned(p)) <= Keys(p)
  {
    CleanedKeys(p);
  }

  /**
   * For a dict (distinct keys), each key maps in the cleaned dict to the
   * normalised input value when that value is kept, and is absent otherwise.
   */
  lemma {:induction false} CleanedLookup(p: Params, k: string)
    requires DistinctKeys(p)
    ensures Lookup(Cleaned(p), k) ==
      (if Lookup(p, k).Some? && Kept(Lookup(p, k).value) then Some(Normalized(Lookup(p, k).value)) else None)
    decreases |p|
  {
    if p != [] {
      var q := p[..|p| - 1];
      var last := p[|p| - 1];
      assert DistinctKeys(q);
      var c := Cleaned(q) + (if Kept(last.1) then [(last.0, Normalized(last.1))] else []);
      assert Cleaned(p) == c;
      if Kept(last.1) {
        assert c[..|c| - 1] == Cleaned(q);
      } else {
        assert c == Cleaned(q);
      }
      if last.0 == k {
        LastKeyFresh(p);
        LookupAbsent(q, k);
        CleanedKeysSubset(q);
        LookupAbsent(Cleaned(q), k);
      } else {
        CleanedLookup(q, k);
      }
    }
  }

  /** The cleaned dict of a dict is again a dict (its keys stay distinct). */
  lemma {:induction false} CleanedDistinct(p: Params)
    requires DistinctKeys(p)
    ensures DistinctKeys(Cleaned(p))
    decreases |p|
  {
    if p != [] {
      var q := p[..|p| - 1];
      var last := p[|p| - 1];
      assert DistinctKeys(q);
      CleanedDistinct(q);
      if Kept(last.1) {
        LastKeyFresh(p);
        CleanedKeysSubset(q);
        var c := Cleaned(q) + [(last.0, Normalized(last.1))];
        assert Cleaned(p) == c;
        forall i, j | 0 <= i < j < |c| ensures c[i].0 != c[j].0 {
          if j < |c| - 1 {
            assert c[i] == Cleaned(q)[i] && c[j] == Cleaned(q)[j];
          } else {
            assert c[i].0 in Keys(Cleaned(q));
          }
        }
      }
    }
  }

  /** Cleaning never grows the dict, and keeps its length exactly when it drops no entry. */
  lemma {:induction false} CleanedNoLonger(p: Params)
    ensures |Cleaned(p)| <= |p|
    ensures |Cleaned(p)| == |p| <==> forall i :: 0 <= i < |p| ==> Kept(p[i].1)
    decreases |p|
  {
    if p != [] {
      var q := p[..|p| - 1];
      CleanedNoLonger(q);
      if forall i :: 0 <= i < |p| ==> Kept(p[i].1) {
        assert forall i :: 0 <= i < |q| ==> Kept(q[i].1) by {
          forall i | 0 <= i < |q| ensures Kept(q[i].1) { assert q[i] == p[i]; }
        }
      } else if forall i :: 0 <= i < |q| ==> Kept(q[i].1) {
        assert !Kept(p[|p| - 1].1) by {
          forall i | 0 <= i < |q| ensures p[i] == q[i] { }
        }
      }
    }
  }

  /**
   * A list of scalars whose string forms hold no comma is recovered by
   * splitting its cleaned value on ",".
   */
  lemma ListRoundTrip(xs: seq<Atom>)
    requires |xs| > 0
    requires forall i :: 0 <= i < |xs| ==> ',' !in StrForm(xs[i])
    ensures Normalized(List(xs)).atom.s == Join(StrForms(xs))
    ensures Split(Normalized(List(xs)).atom.s) == StrForms(xs)
  {
    SplitJoin(StrForms(xs));
  }

  /** A non-empty list whose forms join to "" is kept, as "" — cleaning again drops it: not idempotent. */
  lemma NotIdempotent()
    ensures var p := [("k", List([Str("")]))];
      Cleaned(p) == [("k", Scalar(Str("")))] && Cleaned(Cleaned(p)) == []
  {
  }

  /** Different lists can clean to the same string when an element holds a comma. */
  lemma JoinedListsCollide()
    ensures Normalized(List([Str("a,b")])) == Normalized(List([Str("a"), Str("b")]))
  {
  }
}
