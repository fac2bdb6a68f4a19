/** The query engine over one registry document: decoding, lookup by name
    and filtering by exact-match criteria. Neither query changes the document. */
module Registry {
  import opened Wrappers
  import opened RegistryTypes

  const DefaultAPIVersion := "claim-registry.io/v1alpha1"
  const DefaultKind := "ClaimRegistry"

  /** The error ParseData reports: the decoder's own message, wrapped. */
  datatype ParseError = ParsingRegistryData(cause: string)

  /** Decodes a raw payload. The YAML decoder itself is the parameter
      `unmarshal`; ParseData only wraps its failure. */
  function ParseData(data: seq<bv8>, unmarshal: seq<bv8> -> Result<ClaimRegistry, string>)
    : (r: Result<ClaimRegistry, ParseError>)
    ensures r.Success? <==> unmarshal(data).Success?
    ensures r.Success? ==> r.value == unmarshal(data).value
    ensures r.Failure? ==> r.error == ParsingRegistryData(unmarshal(data).error)
  {
    match unmarshal(data)
    case Success(reg) => Success(reg)
    case Failure(cause) => Failure(ParsingRegistryData(cause))
  }

  // ---------------------------------------------------------------------
  // Lookup by name
  // ---------------------------------------------------------------------

  /** Index `i` holds the first claim named exactly `name`. */
  predicate IsFirstMatch(claims: seq<ClaimEntry>, name: string, i: int) {
    && 0 <= i < |claims|
    && claims[i].name == name
    && forall j :: 0 <= j < i ==> claims[j].name != name
  }

  /** The position of the first claim named `name`, if there is one. */
  function FirstMatch(claims: seq<ClaimEntry>, name: string): (r: Option<nat>)
    ensures r.Some? ==> IsFirstMatch(claims, name, r.value)
    ensures r.None? <==> forall i :: 0 <= i < |claims| ==> claims[i].name != name
  {
    if |claims| == 0 then None
    else if claims[0].name == name then Some(0)
    else
      match FirstMatch(claims[1..], name)
      case None => None
      case Some(k) => Some(k + 1)
  }

  /** With duplicate names the earliest one is the answer. */
  lemma FirstMatchIsEarliest(claims: seq<ClaimEntry>, name: string, i: int)
    requires IsFirstMatch(claims, name, i)
    ensures FirstMatch(claims, name) == Some(i)
  {
  }

  /** FindEntry: a linear scan that stops at the first exact match. The
      returned index stands for the pointer `&reg.Claims[i]`. */
  method FindEntry(reg: ClaimRegistry, name: string) returns (r: Option<nat>)
    ensures r == FirstMatch(reg.claims, name)
  {
    var i := 0;
    while i < |reg.claims|
      invariant 0 <= i <= |reg.claims|
      invariant forall j :: 0 <= j < i ==> reg.claims[j].name != name
    {
      if reg.claims[i].name == name {
        FirstMatchIsEarliest(reg.claims, name, i);
        return Some(i);
      }
      i := i + 1;
    }
    return None;
  }

  // ---------------------------------------------------------------------
  // Filtering
  // ---------------------------------------------------------------------

  /** The four filter criteria; "" in a criterion means "any value". */
  datatype Query = Query(category: string, template: string, status: string, source: string)

  /** The query with every criterion left empty. */
  const Everything := Query("", "", "", "")

  /** One criterion: empty is a wildcard, otherwise the field must equal it.
      It accepts exactly when the loop's `continue` guard does not fire. */
  predicate Accepts(criterion: string, field: string): (b: bool)
    ensures b <==> !(criterion != "" && field != criterion)
    ensures criterion == "" ==> b
  {
    criterion == "" || field == criterion
  }

  /** An entry passes when every criterion accepts its field: when none of
      the four `continue` guards fires. */
  predicate Matches(e: ClaimEntry, q: Query): (m: bool)
    ensures m <==>
      && !(q.category != "" && e.category != q.category)
      && !(q.template != "" && e.template != q.template)
      && !(q.status != "" && e.status != q.status)
      && !(q.source != "" && e.source != q.source)
  {
    && Accepts(q.category, e.category)
    && Accepts(q.template, e.template)
    && Accepts(q.status, e.status)
    && Accepts(q.source, e.source)
  }

  /** The entries that match `q`, in their original order. */
  function Filter(claims: seq<ClaimEntry>, q: Query): (r: seq<ClaimEntry>)
    ensures |r| <= |claims|
    ensures forall e :: e in r <==> e in claims && Matches(e, q)
  {
    if |claims| == 0 then []
    else (if Matches(claims[0], q) then [claims[0]] else []) + Filter(claims[1..], q)
  }

  /** Filtering a sequence extended by one entry extends the result by that
      entry exactly when it matches. */
  lemma {:induction false} FilterAppend(claims: seq<ClaimEntry>, e: ClaimEntry, q: Query)
    ensures Filter(claims + [e], q) == Filter(claims, q) + (if Matches(e, q) then [e] else [])
  {
    if |claims| == 0 {
      assert claims + [e] == [e];
    } else {
      assert (claims + [e])[1..] == claims[1..] + [e];
      FilterAppend(claims[1..], e, q);
    }
  }

  /** FilterEntries: one pass over the claims, skipping an entry as soon as a
      non-empty criterion disagrees with its field. */
  method FilterEntries(reg: ClaimRegistry, category: string, template: string, status: string, source: string)
    returns (result: seq<ClaimEntry>)
    ensures result == Filter(reg.claims, Query(category, template, status, source))
  {
    ghost var q := Query(category, template, status, source);
    result := [];
    for i := 0 to |reg.claims|
      invariant result == Filter(reg.claims[..i], q)
    {
      var e := reg.claims[i];
      FilterAppend(reg.claims[..i], e, q);
      assert reg.claims[..i + 1] == reg.claims[..i] + [e];
      if category != "" && e.category != category {
        continue;
      }
      if template != "" && e.template != template {
        continue;
      }
      if status != "" && e.status != status {
        continue;
      }
      if source != "" && e.source != source {
        continue;
      }
      result := result + [e];
    }
    assert reg.claims[..|reg.claims|] == reg.claims;
  }

  /** `a` can be obtained from `b` by deleting elements, keeping the order. */
  predicate IsSubsequence<T(==)>(a: seq<T>, b: seq<T>)
    decreases |b|
  {
    || |a| == 0
    || (&& |b| > 0
        && ((a[0] == b[0] && IsSubsequence(a[1..], b[1..])) || IsSubsequence(a, b[1..])))
  }

  /** The filter result keeps the source order: it is a subsequence. */
  lemma {:induction false} FilterIsSubsequence(claims: seq<ClaimEntry>, q: Query)
    ensures IsSubsequence(Filter(claims, q), claims)
  {
    if |claims| > 0 {
      FilterIsSubsequence(claims[1..], q);
      var rest := Filter(claims[1..], q);
      if Matches(claims[0], q) {
        assert Filter(claims, q) == [claims[0]] + rest;
        assert Filter(claims, q)[1..] == rest;
      } else {
        assert Filter(claims, q) == rest;
      }
    }
  }

  /** With no criterion set, every claim is returned, in the original order. */
  lemma {:induction false} FilterEverything(claims: seq<ClaimEntry>)
    ensures Filter(claims, Everything) == claims
  {
    if |claims| > 0 {
      FilterEverything(claims[1..]);
    }
  }

  /** No matching claim gives the empty result, not an error. */
  lemma {:induction false} FilterNoMatch(claims: seq<ClaimEntry>, q: Query)
    requires forall i :: 0 <= i < |claims| ==> !Matches(claims[i], q)
    ensures Filter(claims, q) == []
  {
    if |claims| > 0 {
      FilterNoMatch(claims[1..], q);
    }
  }

  /** `fine` keeps every criterion `coarse` sets, and may set more. */
  predicate Refines(fine: Query, coarse: Query) {
    && Accepts(coarse.category, fine.category)
    && Accepts(coarse.template, fine.template)
    && Accepts(coarse.status, fine.status)
    && Accepts(coarse.source, fine.source)
  }

  /** Setting a criterion that was empty can only drop entries: the narrower
      result is a subsequence of the wider one. */
  lemma {:induction false} FilterNarrows(claims: seq<ClaimEntry>, coarse: Query, fine: Query)
    requires Refines(fine, coarse)
    ensures IsSubsequence(Filter(claims, fine), Filter(claims, coarse))
  {
    if |claims| > 0 {
      FilterNarrows(claims[1..], coarse, fine);
      var c := claims[0];
      var narrow, wide := Filter(claims[1..], fine), Filter(claims[1..], coarse);
      if Matches(c, fine) {
        assert Matches(c, coarse);
        assert Filter(claims, fine) == [c] + narrow;
        assert Filter(claims, coarse) == [c] + wide;
        assert Filter(claims, fine)[1..] == narrow;
        assert Filter(claims, coarse)[1..] == wide;
      } else if Matches(c, coarse) {
        assert Filter(claims, fine) == narrow;
        assert Filter(claims, coarse) == [c] + wide;
        assert Filter(claims, coarse)[1..] == wide;
      } else {
        assert Filter(claims, fine) == narrow;
        assert Filter(claims, coarse) == wide;
      }
    }
  }

  /** Filtering by `p` and then by `q` is filtering by any query whose match
      is the conjunction of both. */
  lemma {:induction false} FilterThenFilter(claims: seq<ClaimEntry>, p: Query, q: Query, both: Query)
    requires forall e :: Matches(e, both) <==> Matches(e, p) && Matches(e, q)
    ensures Filter(Filter(claims, p), q) == Filter(claims, both)
  {
    if |claims| > 0 {
      FilterThenFilter(claims[1..], p, q, both);
      var c := claims[0];
      var rest := Filter(claims[1..], p);
      if Matches(c, p) {
        assert Filter(claims, p) == [c] + rest;
        assert Filter(claims, p)[1..] == rest;
        assert Filter(Filter(claims, p), q)
            == (if Matches(c, q) then [c] else []) + Filter(rest, q);
      } else {
        assert Filter(claims, p) == rest;
      }
    }
  }

  /** The four criteria act independently: the filter is the conjunction of
      four single-field filters, applied in any sequence. */
  lemma FilterIsConjunction(claims: seq<ClaimEntry>, q: Query)
    ensures Filter(claims, q)
         == Filter(Filter(Filter(Filter(claims,
              Query(q.category, "", "", "")),
              Query("", q.template, "", "")),
              Query("", "", q.status, "")),
              Query("", "", "", q.source))
  {
    var c := Query(q.category, "", "", "");
    var ct := Query(q.category, q.template, "", "");
    var cts := Query(q.category, q.template, q.status, "");
    FilterThenFilter(claims, c, Query("", q.template, "", ""), ct);
    FilterThenFilter(claims, ct, Query("", "", q.status, ""), cts);
    FilterThenFilter(claims, cts, Query("", "", "", q.source), q);
  }

  /** Applying the same filter twice changes nothing. */
  lemma FilterIdempotent(claims: seq<ClaimEntry>, q: Query)
    ensures Filter(Filter(claims, q), q) == Filter(claims, q)
  {
    FilterThenFilter(claims, q, q, q);
  }
}
