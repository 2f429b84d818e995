/**
 * The query strings of list requests. `EntraGraphService` pages by skipping
 * (`$filter`, `$skip`, `$top`, `$count=true`, each appended in that order);
 * `SCIMService` asks only for the first page (`$filter` and `$top`). A query
 * reader, as a server would read such a string, is the partner of both: each
 * query reads back as the values it was built from.
 */
module Paging {
  import opened Json
  import opened PyText

  /** `start_index - 1 if start_index > 1 else 0`: SCIM counts from 1, Graph skips from 0. */
  function Skip(startIndex: int): (n: nat)
    ensures startIndex >= 1 ==> n + 1 == startIndex
    ensures startIndex <= 1 ==> n == 0
  {
    if startIndex > 1 then startIndex - 1 else 0
  }

  /** The filter fragment a list request is given: none, or a string; both None and "" are falsy. */
  function Fragment(filter: Option<string>): string {
    match filter
    case Some(f) => f
    case None => ""
  }

  // ---------------------------------------------------------------------------
  // Reading a query back

  /** What a query string asks for; an absent `$filter` reads as "", an absent `$skip` as 0. */
  datatype Params = Params(filter: string, skip: nat, top: Option<int>, count: bool)

  const NoParams := Params("", 0, None, false)

  /** The rest of `s` after `prefix`, if `s` starts with it. */
  function After(prefix: string, s: string): (r: Option<string>)
    ensures r.Some? ==> s == prefix + r.value
  {
    if |prefix| <= |s| && s[..|prefix|] == prefix then Some(s[|prefix|..]) else None
  }

  lemma AfterPrefix(prefix: string, t: string)
    ensures After(prefix, prefix + t) == Some(t)
  {
    assert (prefix + t)[..|prefix|] == prefix;
    assert (prefix + t)[|prefix|..] == t;
  }

  /** One `name=value` piece: the four parameters the services send; anything else is refused. */
  function ReadParam(acc: Params, piece: string): Option<Params> {
    match After("$filter=", piece)
    case Some(f) => Some(acc.(filter := f))
    case None =>
      match After("$skip=", piece)
      case Some(t) => (match ParseNat(t) case Some(n) => Some(acc.(skip := n)) case None => None)
      case None =>
        match After("$top=", piece)
        case Some(t) => (match ParseInt(t) case Some(i) => Some(acc.(top := Some(i))) case None => None)
        case None => if piece == "$count=true" then Some(acc.(count := true)) else None
  }

  /** Reads the pieces left to right; the first piece that does not read spoils the query. */
  function ReadPieces(ps: seq<string>, acc: Params): Option<Params> {
    if ps == [] then Some(acc)
    else
      match ReadParam(acc, ps[0])
      case Some(next) => ReadPieces(ps[1..], next)
      case None => None
  }

  /** A query string: "?" and `&`-separated pieces. */
  function ReadQuery(q: string): Option<Params> {
    if |q| > 0 && q[0] == '?' then ReadPieces(Split(q[1..], '&'), NoParams) else None
  }

  /** Appending a piece reads it after the others. */
  lemma {:induction false} ReadPiecesSnoc(ps: seq<string>, piece: string, acc: Params)
    requires ReadPieces(ps, acc).Some?
    ensures ReadPieces(ps + [piece], acc) == ReadParam(ReadPieces(ps, acc).value, piece)
  {
    if ps != [] {
      assert (ps + [piece])[1..] == ps[1..] + [piece];
      ReadPiecesSnoc(ps[1..], piece, ReadParam(acc, ps[0]).value);
    }
  }

  lemma ReadFilterPiece(acc: Params, f: string)
    ensures ReadParam(acc, "$filter=" + f) == Some(acc.(filter := f))
  {
    AfterPrefix("$filter=", f);
  }

  lemma ReadSkipPiece(acc: Params, n: nat)
    ensures ReadParam(acc, "$skip=" + IntToString(n)) == Some(acc.(skip := n))
  {
    var piece := "$skip=" + IntToString(n);
    assert piece[1] == 's';
    AfterPrefix("$skip=", IntToString(n));
    NatToStringRoundTrip(n);
  }

  lemma ReadTopPiece(acc: Params, i: int)
    ensures ReadParam(acc, "$top=" + IntToString(i)) == Some(acc.(top := Some(i)))
  {
    var piece := "$top=" + IntToString(i);
    assert piece[1] == 't' && piece[2] == 'o';
    AfterPrefix("$top=", IntToString(i));
    IntToStringRoundTrip(i);
  }

  lemma ReadCountPiece(acc: Params)
    ensures ReadParam(acc, "$count=true") == Some(acc.(count := true))
  {
    var piece := "$count=true";
    assert piece[1] == 'c';
    assert After("$filter=", piece).None? && After("$skip=", piece).None? && After("$top=", piece).None?;
  }

  lemma DigitsHaveNoAmpersand(d: string)
    requires IsDigits(d)
    ensures '&' !in d
  {
  }

  /** Rendered integers hold digits and a sign only. */
  lemma NumberHasNoAmpersand(i: int)
    ensures '&' !in IntToString(i)
  {
    var n: nat := if i < 0 then -i else i;
    NatToStringRoundTrip(n);
    DigitsHaveNoAmpersand(NatToString(n));
    if i < 0 {
      assert IntToString(i) == "-" + NatToString(n);
      assert IntToString(i)[0] == '-' && IntToString(i)[1..] == NatToString(n);
    }
  }

  // ---------------------------------------------------------------------------
  // EntraGraphService._paginated_request

  /**
   * The `params` of `_paginated_request`, in order: `$filter` when the
   * fragment is non-empty, `$skip` when the skip is positive, then `$top`
   * and `$count=true` always.
   */
  function GraphParams(fragment: string, skip: nat, count: int): (ps: seq<string>)
    ensures |ps| >= 2 && ps[|ps| - 1] == "$count=true"
  {
    (if fragment != "" then ["$filter=" + fragment] else [])
      + (if skip > 0 then ["$skip=" + IntToString(skip)] else [])
      + ["$top=" + IntToString(count), "$count=true"]
  }

  /** `"?" + "&".join(params)`; `params` is never empty, so the query always starts with "?". */
  function GraphQueryString(fragment: string, skip: nat, count: int): (q: string)
    ensures |q| > 0 && q[0] == '?'
  {
    "?" + Join(GraphParams(fragment, skip, count), '&')
  }

  /** The pieces read back as the values they were built from. */
  lemma ReadGraphParams(fragment: string, skip: nat, count: int)
    ensures ReadPieces(GraphParams(fragment, skip, count), NoParams) == Some(Params(fragment, skip, Some(count), true))
  {
    var ps: seq<string> := [];
    var read := NoParams;
    if fragment != "" {
      ReadPiecesSnoc(ps, "$filter=" + fragment, NoParams);
      ReadFilterPiece(read, fragment);
      ps, read := ps + ["$filter=" + fragment], read.(filter := fragment);
    }
    if skip > 0 {
      ReadPiecesSnoc(ps, "$skip=" + IntToString(skip), NoParams);
      ReadSkipPiece(read, skip);
      ps, read := ps + ["$skip=" + IntToString(skip)], read.(skip := skip);
    }
    ReadPiecesSnoc(ps, "$top=" + IntToString(count), NoParams);
    ReadTopPiece(read, count);
    ps, read := ps + ["$top=" + IntToString(count)], read.(top := Some(count));
    ReadPiecesSnoc(ps, "$count=true", NoParams);
    ReadCountPiece(read);
    ps := ps + ["$count=true"];
    assert ps == GraphParams(fragment, skip, count);
  }

  /**
   * When the fragment holds no "&", the query reads back as exactly the
   * filter, skip and page size it was built from, with the count requested
   * (an "&" in the fragment would split it into further pieces).
   */
  lemma GraphQueryReadsBack(fragment: string, skip: nat, count: int)
    requires '&' !in fragment
    ensures ReadQuery(GraphQueryString(fragment, skip, count)) == Some(Params(fragment, skip, Some(count), true))
  {
    var ps := GraphParams(fragment, skip, count);
    NumberHasNoAmpersand(skip);
    NumberHasNoAmpersand(count);
    SplitJoin(ps, '&');
    assert GraphQueryString(fragment, skip, count)[1..] == Join(ps, '&');
    ReadGraphParams(fragment, skip, count);
  }

  /**
   * The query of `_paginated_request`, built as the source builds it, by
   * appending to `params`: it is the query string of the fragment, the skip
   * of the start index, and the page size.
   */
  method GraphQuery(filter: Option<string>, startIndex: int, count: int) returns (params: seq<string>, query: string)
    ensures params == GraphParams(Fragment(filter), Skip(startIndex), count)
    ensures query == GraphQueryString(Fragment(filter), Skip(startIndex), count)
  {
    var skip := Skip(startIndex);
    params := [];
    if filter.Some? && filter.value != "" {
      params := params + ["$filter=" + filter.value];
    }
    if skip > 0 {
      params := params + ["$skip=" + IntToString(skip)];
    }
    params := params + ["$top=" + IntToString(count)];
    params := params + ["$count=true"];
    query := if |params| > 0 then "?" + Join(params, '&') else "";
  }

  // ---------------------------------------------------------------------------
  // SCIMService.get_users / get_groups

  /** `?$filter=<f>&$top=<count>`, or `?$top=<count>` when the fragment is empty. */
  function FirstPageQuery(fragment: string, count: int): (q: string)
    ensures |q| > 0 && q[0] == '?'
  {
    var filterParam := if fragment != "" then "$filter=" + fragment else "";
    var pagination := "$top=" + IntToString(count);
    if filterParam != "" then "?" + filterParam + "&" + pagination else "?" + pagination
  }

  /** The pieces of the first-page query: the filter when non-empty, then the page size. */
  function FirstPagePieces(fragment: string, count: int): seq<string> {
    (if fragment != "" then ["$filter=" + fragment] else []) + ["$top=" + IntToString(count)]
  }

  lemma FirstPageQueryJoins(fragment: string, count: int)
    ensures FirstPageQuery(fragment, count)[1..] == Join(FirstPagePieces(fragment, count), '&')
  {
  }

  lemma ReadFirstPagePieces(fragment: string, count: int)
    ensures ReadPieces(FirstPagePieces(fragment, count), NoParams) == Some(Params(fragment, 0, Some(count), false))
  {
    var top := "$top=" + IntToString(count);
    ReadPiecesSnoc([], top, NoParams);
    if fragment != "" {
      ReadFilterPiece(NoParams, fragment);
      ReadPiecesSnoc(["$filter=" + fragment], top, NoParams);
      ReadTopPiece(NoParams.(filter := fragment), count);
    } else {
      ReadTopPiece(NoParams, count);
    }
  }

  /**
   * The first-page query has no `$skip` and no `$count`: its pieces are the
   * filter (when non-empty) and the page size, and it reads back as those.
   */
  lemma FirstPageQueryReadsBack(fragment: string, count: int)
    requires '&' !in fragment
    ensures var q := FirstPageQuery(fragment, count);
            && Split(q[1..], '&') == FirstPagePieces(fragment, count)
            && ReadQuery(q) == Some(Params(fragment, 0, Some(count), false))
  {
    NumberHasNoAmpersand(count);
    FirstPageQueryJoins(fragment, count);
    SplitJoin(FirstPagePieces(fragment, count), '&');
    ReadFirstPagePieces(fragment, count);
  }
}
